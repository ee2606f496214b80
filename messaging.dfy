/**
 * Messages and per-recipient mailboxes. The messenger's own implementation is not part of
 * this model; it is modelled by the behaviour its callers rely on: `SendMessage` appends to
 * the recipient's queue and never fails, `FetchMessage` pops the oldest message or reports
 * that there is none, and queues of different recipients are independent.
 */
module Messaging {
  import opened Wrappers

  /** Entity UIDs (TEntityUID). */
  type UID = int

  /**
   * The reserved recipient that stands for the scene driver rather than an entity.
   * Its numeric value is declared in a header that is not part of this model; no property
   * here depends on it.
   */
  const SystemUID: UID := 0xFFFF_FFFF

  /** The message types of the simulation (Msg_Start, Msg_Stop, ...). */
  datatype MsgKind =
    | MsgStart | MsgStop | MsgHit | MsgHelpMe | MsgEvade
    | MsgHealthCollected | MsgAmmoCollected | MsgNewHealthPack | MsgNewAmmoPack

  /** SMessage: type, sender and integer payload. */
  datatype Message = Message(kind: MsgKind, from: UID, data: int)

  type Mailboxes = map<UID, seq<Message>>

  /** The queue of `u` (a recipient nobody wrote to has an empty queue). */
  function Queue(mb: Mailboxes, u: UID): seq<Message>
  {
    if u in mb then mb[u] else []
  }

  /** SendMessage: append to the recipient's queue, leave every other queue alone. */
  function Send(mb: Mailboxes, to: UID, m: Message): (r: Mailboxes)
    ensures Queue(r, to) == Queue(mb, to) + [m]
    ensures forall u :: u != to ==> Queue(r, u) == Queue(mb, u)
  {
    mb[to := Queue(mb, to) + [m]]
  }

  datatype Fetched = Fetched(msg: Message, rest: Mailboxes)

  /** FetchMessage: the oldest message of `u` and the mailboxes without it, if there is one. */
  function Fetch(mb: Mailboxes, u: UID): (r: Option<Fetched>)
    ensures r.None? <==> Queue(mb, u) == []
    ensures r.Some? ==> r.value.msg == Queue(mb, u)[0]
    ensures r.Some? ==> Queue(r.value.rest, u) == Queue(mb, u)[1..]
    ensures r.Some? ==> forall v :: v != u ==> Queue(r.value.rest, v) == Queue(mb, v)
  {
    if Queue(mb, u) == [] then None
    else Some(Fetched(Queue(mb, u)[0], mb[u := Queue(mb, u)[1..]]))
  }

  /** How many times `u` occurs in `s`. */
  function Count(s: seq<UID>, u: UID): nat
  {
    if s == [] then 0 else (if s[0] == u then 1 else 0) + Count(s[1..], u)
  }

  /** `n` copies of `m`. */
  function Repeat(m: Message, n: nat): (r: seq<Message>)
    ensures |r| == n
    ensures forall i :: 0 <= i < n ==> r[i] == m
  {
    if n == 0 then [] else [m] + Repeat(m, n - 1)
  }

  /** Sending `m` to every UID of `to`, in order (the for-loop over a team list). */
  function Broadcast(mb: Mailboxes, to: seq<UID>, m: Message): (r: Mailboxes)
    ensures forall u :: Queue(r, u) == Queue(mb, u) + Repeat(m, Count(to, u))
    decreases |to|
  {
    if to == [] then mb
    else
      var r := Broadcast(Send(mb, to[0], m), to[1..], m);
      assert forall u ::
        Queue(r, u) == Queue(mb, u) + Repeat(m, Count(to, u)) by {
        forall u ensures Queue(r, u) == Queue(mb, u) + Repeat(m, Count(to, u)) {
          if to[0] == u {
            assert Repeat(m, Count(to, u)) == [m] + Repeat(m, Count(to[1..], u));
          }
        }
      }
      r
  }

  /** How many messages of kind `k` a queue holds. */
  function CountKind(q: seq<Message>, k: MsgKind): nat
  {
    if q == [] then 0 else (if q[0].kind == k then 1 else 0) + CountKind(q[1..], k)
  }

  lemma {:induction false} CountKindAppend(a: seq<Message>, b: seq<Message>, k: MsgKind)
    ensures CountKind(a + b, k) == CountKind(a, k) + CountKind(b, k)
  {
    if a == [] {
      assert a + b == b;
    } else {
      assert (a + b)[1..] == a[1..] + b;
      CountKindAppend(a[1..], b, k);
    }
  }

  lemma {:induction false} CountKindRepeat(m: Message, n: nat, k: MsgKind)
    ensures CountKind(Repeat(m, n), k) == if m.kind == k then n else 0
  {
    if n > 0 {
      assert Repeat(m, n)[1..] == Repeat(m, n - 1);
      CountKindRepeat(m, n - 1, k);
    }
  }

  /** Sending `ms` to `u` one after the other. */
  function SendAll(mb: Mailboxes, u: UID, ms: seq<Message>): Mailboxes
    decreases |ms|
  {
    if ms == [] then mb else SendAll(Send(mb, u, ms[0]), u, ms[1..])
  }

  /** Fetching `n` messages of `u` one after the other, as far as there are any. */
  function FetchN(mb: Mailboxes, u: UID, n: nat): seq<Message>
  {
    if n == 0 then []
    else match Fetch(mb, u)
      case None => []
      case Some(f) => [f.msg] + FetchN(f.rest, u, n - 1)
  }

  lemma {:induction false} SendAllQueue(mb: Mailboxes, u: UID, ms: seq<Message>)
    ensures Queue(SendAll(mb, u, ms), u) == Queue(mb, u) + ms
    decreases |ms|
  {
    if ms != [] {
      SendAllQueue(Send(mb, u, ms[0]), u, ms[1..]);
      assert Queue(mb, u) + [ms[0]] + ms[1..] == Queue(mb, u) + ms;
    }
  }

  lemma {:induction false} FetchNQueue(mb: Mailboxes, u: UID, n: nat)
    requires n == |Queue(mb, u)|
    ensures FetchN(mb, u, n) == Queue(mb, u)
  {
    if n > 0 {
      var f := Fetch(mb, u).value;
      FetchNQueue(f.rest, u, n - 1);
    }
  }

  /**
   * Per-recipient delivery is first in, first out: messages sent to an empty queue are
   * fetched back in the order they were sent.
   */
  lemma SendThenFetchInOrder(mb: Mailboxes, u: UID, ms: seq<Message>)
    requires Queue(mb, u) == []
    ensures FetchN(SendAll(mb, u, ms), u, |ms|) == ms
  {
    SendAllQueue(mb, u, ms);
    FetchNQueue(SendAll(mb, u, ms), u, |ms|);
  }

  /** The global messenger object. */
  class Messenger {
    var boxes: Mailboxes

    constructor ()
      ensures boxes == map[]
    {
      boxes := map[];
    }

    method SendMessage(to: UID, m: Message)
      modifies this
      ensures boxes == Send(old(boxes), to, m)
    {
      boxes := boxes[to := Queue(boxes, to) + [m]];
    }

    /** Pops the oldest message of `u`; an empty queue yields None and changes nothing. */
    method FetchMessage(u: UID) returns (r: Option<Message>)
      modifies this
      ensures r.None? ==> Fetch(old(boxes), u).None? && boxes == old(boxes)
      ensures r.Some? ==> Fetch(old(boxes), u) == Some(Fetched(r.value, boxes))
    {
      if u in boxes && boxes[u] != [] {
        r := Some(boxes[u][0]);
        boxes := boxes[u := boxes[u][1..]];
      } else {
        r := None;
      }
    }
  }
}
