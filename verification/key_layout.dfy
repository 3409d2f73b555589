/**
 * The US keyboard layout of KeyboardPeripheral.kt: the modifier byte and the key code that type
 * each character (`modifier` and `keyCode`), and, as the reference they are checked against, the
 * legends of the keys of the Keyboard/Keypad usage page (section 10 of the HID Usage Tables 1.12).
 */
module KeyLayout {
  import opened Common

  const MODIFIER_KEY_NONE: Byte := 0
  const MODIFIER_KEY_CTRL: Byte := 1
  const MODIFIER_KEY_SHIFT: Byte := 2
  const MODIFIER_KEY_ALT: Byte := 4

  const KEY_A: Byte := 0x04
  const KEY_B: Byte := 0x05
  const KEY_Z: Byte := 0x1D
  const KEY_1: Byte := 0x1E
  const KEY_0: Byte := 0x27
  const KEY_ENTER: Byte := 0x28
  const KEY_ESC: Byte := 0x29
  const KEY_BACKSPACE: Byte := 0x2A
  const KEY_TAB: Byte := 0x2B
  const KEY_SPACE: Byte := 0x2C
  const KEY_F1: Byte := 0x3A
  const KEY_RIGHT_ARROW: Byte := 0x4F
  const KEY_LEFT_ARROW: Byte := 0x50
  const KEY_DOWN_ARROW: Byte := 0x51
  const KEY_UP_ARROW: Byte := 0x52

  /** The backspace character. */
  const BACKSPACE: char := '\U{0008}'

  /**
   * `modifier(char)`: Shift for capital letters and for the symbols typed with Shift on a US
   * keyboard, no modifier otherwise. The symbols are listed by code point.
   */
  function Modifier(c: char): (m: Byte)
    ensures m == MODIFIER_KEY_SHIFT || m == MODIFIER_KEY_NONE
  {
    if 'A' <= c <= 'Z' then MODIFIER_KEY_SHIFT
    else
      match c as int
      case 0x21 => MODIFIER_KEY_SHIFT  // '!'
      case 0x22 => MODIFIER_KEY_SHIFT  // '"'
      case 0x23 => MODIFIER_KEY_SHIFT  // '#'
      case 0x24 => MODIFIER_KEY_SHIFT  // '$'
      case 0x25 => MODIFIER_KEY_SHIFT  // '%'
      case 0x26 => MODIFIER_KEY_SHIFT  // '&'
      case 0x28 => MODIFIER_KEY_SHIFT  // '('
      case 0x29 => MODIFIER_KEY_SHIFT  // ')'
      case 0x2A => MODIFIER_KEY_SHIFT  // '*'
      case 0x2B => MODIFIER_KEY_SHIFT  // '+'
      case 0x3A => MODIFIER_KEY_SHIFT  // ':'
      case 0x3C => MODIFIER_KEY_SHIFT  // '<'
      case 0x3E => MODIFIER_KEY_SHIFT  // '>'
      case 0x3F => MODIFIER_KEY_SHIFT  // '?'
      case 0x40 => MODIFIER_KEY_SHIFT  // '@'
      case 0x5E => MODIFIER_KEY_SHIFT  // '^'
      case 0x5F => MODIFIER_KEY_SHIFT  // '_'
      case 0x7B => MODIFIER_KEY_SHIFT  // '{'
      case 0x7C => MODIFIER_KEY_SHIFT  // '|'
      case 0x7D => MODIFIER_KEY_SHIFT  // '}'
      case 0x7E => MODIFIER_KEY_SHIFT  // '~'
      case _ => MODIFIER_KEY_NONE
  }

  /**
   * `keyCode(char)`: the usage ID of the key that types `c` on a US keyboard (a letter and its
   * capital, a digit and the symbol above it share a key), 0 for a character with no key. The
   * characters are listed by code point.
   */
  function KeyCode(c: char): (k: Byte)
    ensures k == 0x00 || KEY_A <= k <= 0x38
  {
    match c as int
    case 0x08 => KEY_BACKSPACE  // backspace
    case 0x09 => KEY_TAB  // '\t'
    case 0x0A => KEY_ENTER  // '\n'
    case 0x20 => KEY_SPACE  // ' '
    case 0x21 => KEY_1  // '!'
    case 0x22 => 0x34  // '"'
    case 0x23 => 0x20  // '#'
    case 0x24 => 0x21  // '$'
    case 0x25 => 0x22  // '%'
    case 0x26 => 0x24  // '&'
    case 0x27 => 0x34  // '\''
    case 0x28 => 0x26  // '('
    case 0x29 => KEY_0  // ')'
    case 0x2A => 0x25  // '*'
    case 0x2B => 0x2E  // '+'
    case 0x2C => 0x36  // ','
    case 0x2D => 0x2D  // '-'
    case 0x2E => 0x37  // '.'
    case 0x2F => 0x38  // '/'
    case 0x30 => KEY_0  // '0'
    case 0x31 => KEY_1  // '1'
    case 0x32 => 0x1F  // '2'
    case 0x33 => 0x20  // '3'
    case 0x34 => 0x21  // '4'
    case 0x35 => 0x22  // '5'
    case 0x36 => 0x23  // '6'
    case 0x37 => 0x24  // '7'
    case 0x38 => 0x25  // '8'
    case 0x39 => 0x26  // '9'
    case 0x3A => 0x33  // ':'
    case 0x3B => 0x33  // ';'
    case 0x3C => 0x36  // '<'
    case 0x3D => 0x2E  // '='
    case 0x3E => 0x37  // '>'
    case 0x3F => 0x38  // '?'
    case 0x40 => 0x1F  // '@'
    case 0x41 => KEY_A  // 'A'
    case 0x42 => KEY_B  // 'B'
    case 0x43 => 0x06  // 'C'
    case 0x44 => 0x07  // 'D'
    case 0x45 => 0x08  // 'E'
    case 0x46 => 0x09  // 'F'
    case 0x47 => 0x0A  // 'G'
    case 0x48 => 0x0B  // 'H'
    case 0x49 => 0x0C  // 'I'
    case 0x4A => 0x0D  // 'J'
    case 0x4B => 0x0E  // 'K'
    case 0x4C => 0x0F  // 'L'
    case 0x4D => 0x10  // 'M'
    case 0x4E => 0x11  // 'N'
    case 0x4F => 0x12  // 'O'
    case 0x50 => 0x13  // 'P'
    case 0x51 => 0x14  // 'Q'
    case 0x52 => 0x15  // 'R'
    case 0x53 => 0x16  // 'S'
    case 0x54 => 0x17  // 'T'
    case 0x55 => 0x18  // 'U'
    case 0x56 => 0x19  // 'V'
    case 0x57 => 0x1A  // 'W'
    case 0x58 => 0x1B  // 'X'
    case 0x59 => 0x1C  // 'Y'
    case 0x5A => KEY_Z  // 'Z'
    case 0x5B => 0x2F  // '['
    case 0x5C => 0x31  // '\\'
    case 0x5D => 0x30  // ']'
    case 0x5E => 0x23  // '^'
    case 0x5F => 0x2D  // '_'
    case 0x60 => 0x35  // '`'
    case 0x61 => KEY_A  // 'a'
    case 0x62 => KEY_B  // 'b'
    case 0x63 => 0x06  // 'c'
    case 0x64 => 0x07  // 'd'
    case 0x65 => 0x08  // 'e'
    case 0x66 => 0x09  // 'f'
    case 0x67 => 0x0A  // 'g'
    case 0x68 => 0x0B  // 'h'
    case 0x69 => 0x0C  // 'i'
    case 0x6A => 0x0D  // 'j'
    case 0x6B => 0x0E  // 'k'
    case 0x6C => 0x0F  // 'l'
    case 0x6D => 0x10  // 'm'
    case 0x6E => 0x11  // 'n'
    case 0x6F => 0x12  // 'o'
    case 0x70 => 0x13  // 'p'
    case 0x71 => 0x14  // 'q'
    case 0x72 => 0x15  // 'r'
    case 0x73 => 0x16  // 's'
    case 0x74 => 0x17  // 't'
    case 0x75 => 0x18  // 'u'
    case 0x76 => 0x19  // 'v'
    case 0x77 => 0x1A  // 'w'
    case 0x78 => 0x1B  // 'x'
    case 0x79 => 0x1C  // 'y'
    case 0x7A => KEY_Z  // 'z'
    case 0x7B => 0x2F  // '{'
    case 0x7C => 0x31  // '|'
    case 0x7D => 0x30  // '}'
    case 0x7E => 0x35  // '~'
    case _ => 0x00
  }

  /**
   * The legend of the key with usage ID `key` on a US keyboard (section 10 of the HID Usage
   * Tables 1.12): what it types without and with Shift; None for keys that type no character.
   */
  function Legend(key: Byte): Option<(char, char)>
  {
    if KEY_A <= key <= KEY_Z then
      var offset := (key - KEY_A) as int;
      Some((('a' as int + offset) as char, ('A' as int + offset) as char))
    else
      match key
      case 0x1E => Some(('1', '!'))
      case 0x1F => Some(('2', '@'))
      case 0x20 => Some(('3', '#'))
      case 0x21 => Some(('4', '$'))
      case 0x22 => Some(('5', '%'))
      case 0x23 => Some(('6', '^'))
      case 0x24 => Some(('7', '&'))
      case 0x25 => Some(('8', '*'))
      case 0x26 => Some(('9', '('))
      case 0x27 => Some(('0', ')'))
      case 0x28 => Some(('\n', '\n'))
      case 0x2A => Some((BACKSPACE, BACKSPACE))
      case 0x2B => Some(('\t', '\t'))
      case 0x2C => Some((' ', ' '))
      case 0x2D => Some(('-', '_'))
      case 0x2E => Some(('=', '+'))
      case 0x2F => Some(('[', '{'))
      case 0x30 => Some((']', '}'))
      case 0x31 => Some(('\\', '|'))
      case 0x33 => Some((';', ':'))
      case 0x34 => Some(('\'', '"'))
      case 0x35 => Some(('`', '~'))
      case 0x36 => Some((',', '<'))
      case 0x37 => Some(('.', '>'))
      case 0x38 => Some(('/', '?'))
      case _ => None
  }

  /** The character a host types for a modifier byte and a key code, by the key's legend. */
  function Typed(modifier: Byte, key: Byte): Option<char>
  {
    match Legend(key)
    case None => None
    case Some(pair) => Some(if modifier & MODIFIER_KEY_SHIFT != 0 then pair.1 else pair.0)
  }

  /**
   * Every character that has a key is typed back by that key with that modifier: `keyCode` and
   * `modifier` agree with the legends of the keys.
   */
  lemma TypingIsInvertible(c: char)
    requires KeyCode(c) != 0
    ensures Typed(Modifier(c), KeyCode(c)) == Some(c)
  {
    var k := KeyCode(c);
    if k <= 0x0A {
      TypingKeysAToG(c);
    } else if k <= 0x10 {
      TypingKeysHToM(c);
    } else if k <= 0x17 {
      TypingKeysNToT(c);
    } else if k <= KEY_Z {
      TypingKeysUToZ(c);
    } else if k <= 0x22 {
      TypingKeys1To5(c);
    } else if k <= KEY_0 {
      TypingKeys6To0(c);
    } else if k <= KEY_SPACE {
      TypingKeysEnterToSpace(c);
    } else if k <= 0x32 {
      TypingKeysMinusToBackslash(c);
    } else if k <= 0x35 {
      TypingKeysSemicolonToGrave(c);
    } else {
      TypingKeysCommaToSlash(c);
    }
  }

  // The cases of TypingIsInvertible, a few keys at a time.

  lemma TypingKeysAToG(c: char)
    requires KEY_A <= KeyCode(c) <= 0x0A
    ensures Typed(Modifier(c), KeyCode(c)) == Some(c)
  {
  }

  lemma TypingKeysHToM(c: char)
    requires 0x0B <= KeyCode(c) <= 0x10
    ensures Typed(Modifier(c), KeyCode(c)) == Some(c)
  {
  }

  lemma TypingKeysNToT(c: char)
    requires 0x11 <= KeyCode(c) <= 0x17
    ensures Typed(Modifier(c), KeyCode(c)) == Some(c)
  {
  }

  lemma TypingKeysUToZ(c: char)
    requires 0x18 <= KeyCode(c) <= KEY_Z
    ensures Typed(Modifier(c), KeyCode(c)) == Some(c)
  {
  }

  lemma TypingKeys1To5(c: char)
    requires KEY_1 <= KeyCode(c) <= 0x22
    ensures Typed(Modifier(c), KeyCode(c)) == Some(c)
  {
  }

  lemma TypingKeys6To0(c: char)
    requires 0x23 <= KeyCode(c) <= KEY_0
    ensures Typed(Modifier(c), KeyCode(c)) == Some(c)
  {
  }

  lemma TypingKeysEnterToSpace(c: char)
    requires KEY_ENTER <= KeyCode(c) <= KEY_SPACE
    ensures Typed(Modifier(c), KeyCode(c)) == Some(c)
  {
  }

  lemma TypingKeysMinusToBackslash(c: char)
    requires 0x2D <= KeyCode(c) <= 0x32
    ensures Typed(Modifier(c), KeyCode(c)) == Some(c)
  {
  }

  lemma TypingKeysSemicolonToGrave(c: char)
    requires 0x33 <= KeyCode(c) <= 0x35
    ensures Typed(Modifier(c), KeyCode(c)) == Some(c)
  {
  }

  lemma TypingKeysCommaToSlash(c: char)
    requires 0x36 <= KeyCode(c)
    ensures Typed(Modifier(c), KeyCode(c)) == Some(c)
  {
  }

  /** Whatever needs Shift has a key. */
  lemma ShiftedCharactersHaveKeys(c: char)
    requires Modifier(c) == MODIFIER_KEY_SHIFT
    ensures KeyCode(c) != 0
  {
  }

  /**
   * Control characters other than newline, tab and backspace, and the characters past '~', have
   * no key and no modifier, so `sendKeys` skips them.
   */
  lemma UnlistedCharactersHaveNoKey(c: char)
    requires (c < ' ' && c != '\n' && c != '\t' && c != BACKSPACE) || c > '~'
    ensures KeyCode(c) == 0 && Modifier(c) == MODIFIER_KEY_NONE
  {
  }
}
