/**
 * The one-at-a-time registration of GATT services in HidPeripheral.kt: `addService` queues a
 * service and submits it to the server only when it is the only one queued; each
 * `onServiceAdded` drops the head and submits the next one, and once the queue is empty starts
 * advertising. The queue is generic in what it holds.
 */
module ServiceQueue {

  /** What a queue operation asks of the server. */
  datatype Step<S> =
    | Submit(service: S)   // gattServer.addService(service)
    | ServerMissing        // a service is due but there is no server: only logged
    | Idle                 // nothing to do
    | AllAdded             // queue drained: startBleAdvertising

  /** `addService(s)`: the new queue and what happens with the server. */
  function Enqueue<S>(pending: seq<S>, s: S, serverOpen: bool): (r: (seq<S>, Step<S>))
    ensures r.0 == pending + [s]
    ensures r.1.Submit? <==> pending == [] && serverOpen
    ensures r.1.Submit? ==> r.1.service == s
    ensures r.1 != AllAdded
  {
    var q := pending + [s];
    if |q| == 1 then (q, if serverOpen then Submit(q[0]) else ServerMissing)
    else (q, Idle)
  }

  /** `onServiceAdded`: the head is dropped, then the next one is submitted, or advertising starts. */
  function Acknowledge<S>(pending: seq<S>, serverOpen: bool): (r: (seq<S>, Step<S>))
    ensures pending != [] ==> r.0 == pending[1..]
    ensures pending == [] ==> r.0 == []
    ensures r.1 == AllAdded <==> |pending| <= 1
    ensures r.1.Submit? <==> |pending| >= 2 && serverOpen
    ensures r.1.Submit? ==> r.1.service == pending[1]
  {
    var rest := if pending == [] then [] else pending[1..];
    if rest != [] then (rest, if serverOpen then Submit(rest[0]) else ServerMissing)
    else (rest, AllAdded)
  }

  /** The steps of `k` successive acknowledgements while the server stays open. */
  function Drain<S>(pending: seq<S>, k: nat): seq<Step<S>>
  {
    if k == 0 then []
    else
      var (rest, step) := Acknowledge(pending, true);
      [step] + Drain(rest, k - 1)
  }

  /** Every element of `s` as a submission. */
  function Submissions<S>(s: seq<S>): (r: seq<Step<S>>)
    ensures |r| == |s|
    ensures forall i :: 0 <= i < |s| ==> r[i] == Submit(s[i])
  {
    if s == [] then [] else [Submit(s[0])] + Submissions(s[1..])
  }

  /**
   * With the first queued service already submitted, acknowledging each one in turn submits the
   * others in queue order and starts advertising exactly once, after the last one.
   */
  lemma {:induction false} DrainSubmitsInOrder<S>(pending: seq<S>)
    requires pending != []
    ensures Drain(pending, |pending|) == Submissions(pending[1..]) + [AllAdded]
  {
    var (rest, step) := Acknowledge(pending, true);
    if |pending| == 1 {
      assert rest == [] && step == AllAdded;
    } else {
      assert step == Submit(pending[1]) && rest == pending[1..];
      DrainSubmitsInOrder(rest);
      assert rest[1..] == pending[2..];
      calc {
        Drain(pending, |pending|);
        [step] + Drain(rest, |rest|);
        [Submit(pending[1])] + (Submissions(pending[2..]) + [AllAdded]);
        { assert Submissions(pending[1..]) == [Submit(pending[1])] + Submissions(pending[2..]); }
        Submissions(pending[1..]) + [AllAdded];
      }
    }
  }

  /** Queuing services one after another into an empty queue. */
  function EnqueueAll<S>(pending: seq<S>, services: seq<S>, serverOpen: bool): (seq<S>, seq<Step<S>>)
    decreases |services|
  {
    if services == [] then (pending, [])
    else
      var (q, step) := Enqueue(pending, services[0], serverOpen);
      var (q', steps) := EnqueueAll(q, services[1..], serverOpen);
      (q', [step] + steps)
  }

  /**
   * Queuing services into an empty queue with the server open submits only the first one; the
   * queue then holds all of them in order.
   */
  lemma {:induction false} EnqueueAllSubmitsFirst<S>(pending: seq<S>, services: seq<S>)
    requires services != []
    ensures EnqueueAll(pending, services, true).0 == pending + services
    ensures pending == [] ==> EnqueueAll(pending, services, true).1 == [Submit(services[0])] + seq(|services| - 1, _ => Idle)
    ensures pending != [] ==> EnqueueAll(pending, services, true).1 == seq(|services|, _ => Idle)
    decreases |services|
  {
    var (q, step) := Enqueue(pending, services[0], true);
    if |services| > 1 {
      EnqueueAllSubmitsFirst(q, services[1..]);
      assert q + services[1..] == pending + services;
    } else {
      assert pending + services == q;
    }
  }

  /**
   * Registering the three services (device information, battery, HID) with an open server, then
   * receiving one `onServiceAdded` per service: each is submitted once, in that order, and
   * advertising starts once, at the end.
   */
  lemma RegisterThreeServices<S>(dis: S, battery: S, hid: S)
    ensures var (q, steps) := EnqueueAll([], [dis, battery, hid], true);
      q == [dis, battery, hid]
      && steps == [Submit(dis), Idle, Idle]
      && Drain(q, 3) == [Submit(battery), Submit(hid), AllAdded]
  {
    EnqueueAllSubmitsFirst([], [dis, battery, hid]);
    DrainSubmitsInOrder([dis, battery, hid]);
    assert [dis, battery, hid][1..] == [battery, hid];
  }
}
