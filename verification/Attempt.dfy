/** The event queue between a running attempt and its caller (`dispatch.py`, class `Attempt`). */
module Attempts {
  import opened Text

  const EventBuffer: nat := 256

  /** The queue and its flags; an absent element is the end marker. */
  datatype Delivery<E> = Delivery(queue: seq<Option<E>>, open: bool, lost: bool)

  function Emitted<E>(d: Delivery<E>, e: E): Delivery<E> {
    if !d.open then d.(lost := true)
    else if |d.queue| >= EventBuffer then d.(open := false, lost := true)
    else d.(queue := d.queue + [Some(e)])
  }

  function Closed<E>(d: Delivery<E>): Delivery<E> {
    if |d.queue| >= EventBuffer then Delivery([None], false, true)
    else d.(queue := d.queue + [None], open := false)
  }

  class Attempt<E(==)> {
    var queue: seq<Option<E>>
    var open: bool
    var lost: bool

    function View(): Delivery<E>
      reads this
    {
      Delivery(queue, open, lost)
    }

    constructor ()
      ensures View() == Delivery([], true, false)
    {
      queue, open, lost := [], true, false;
    }

    /** `put_nowait`: refused by a full queue. */
    method PutNowait(item: Option<E>) returns (full: bool)
      modifies this`queue
      ensures full <==> |old(queue)| >= EventBuffer
      ensures queue == if full then old(queue) else old(queue) + [item]
    {
      full := |queue| >= EventBuffer;
      if !full {
        queue := queue + [item];
      }
    }

    method Emit(e: E)
      modifies this
      ensures View() == Emitted(old(View()), e)
    {
      if !open {
        lost := true;
        return;
      }
      var full := PutNowait(Some(e));
      if full {
        open := false;
        lost := true;
      }
    }

    /** The end marker is always queued: a full queue is emptied first. */
    method Close()
      requires |queue| <= EventBuffer
      modifies this
      ensures View() == Closed(old(View()))
      ensures queue != [] && queue[|queue| - 1] == None && |queue| <= EventBuffer
    {
      open := false;
      if |queue| == EventBuffer {
        while queue != []
          invariant open == false && lost == old(lost)
          decreases |queue|
        {
          queue := queue[1..];
        }
        lost := true;
      }
      var full := PutNowait(None);
      assert !full;
    }

    method Abandon()
      modifies this`open
      ensures View() == old(View()).(open := false)
    {
      open := false;
    }

    /** `events`, once the attempt has closed: everything queued, up to the end marker. */
    method ReadToEnd() returns (read: seq<E>)
      requires EndsOnce(queue)
      modifies this`queue
      ensures queue == [] && read == Events(old(queue))
    {
      read := [];
      while true
        invariant EndsOnce(queue)
        invariant read + Events(queue) == Events(old(queue))
        decreases |queue|
      {
        var event := queue[0];
        queue := queue[1..];
        if event == None {
          return;
        }
        read := read + [event.value];
      }
    }
  }

  // -- Any interleaving ---------------------------------------------------------------------

  datatype Action<E> = Emit(e: E) | Read | Abandon | Close

  /** A delivery with everything the relay has emitted and everything the reader has got. */
  datatype Session<E> = Session(d: Delivery<E>, emitted: seq<E>, got: seq<E>, closed: bool, finished: bool)

  /** The events in a queue before its end marker. */
  function Events<E>(queue: seq<Option<E>>): seq<E> {
    if queue == [] || queue[0] == None then [] else [queue[0].value] + Events(queue[1..])
  }

  /** The end marker is there, and last. */
  ghost predicate EndsOnce<E>(queue: seq<Option<E>>) {
    queue != [] && queue[|queue| - 1] == None && forall i | 0 <= i < |queue| - 1 :: queue[i] != None
  }

  ghost predicate NoEnd<E>(queue: seq<Option<E>>) {
    forall i | 0 <= i < |queue| :: queue[i] != None
  }

  /** The attempt is closed once; the reader waits on an empty queue and stops at the end marker. */
  predicate Can<E>(s: Session<E>, a: Action<E>) {
    match a
    case Read => s.d.queue != [] && !s.finished
    case Close => !s.closed
    case _ => true
  }

  function Do<E>(s: Session<E>, a: Action<E>): Session<E>
    requires Can(s, a)
  {
    match a
    case Emit(e) => s.(d := Emitted(s.d, e), emitted := s.emitted + [e])
    case Read =>
      var rest := s.d.(queue := s.d.queue[1..]);
      if s.d.queue[0] == None then s.(d := rest, finished := true)
      else s.(d := rest, got := s.got + [s.d.queue[0].value])
    case Abandon => s.(d := s.d.(open := false))
    case Close => s.(d := Closed(s.d), closed := true)
  }

  ghost predicate Possible<E(!new)>(s: Session<E>, actions: seq<Action<E>>)
    decreases |actions|
  {
    actions == [] || (Can(s, actions[0]) && Possible(Do(s, actions[0]), actions[1..]))
  }

  ghost function Then<E(!new)>(s: Session<E>, actions: seq<Action<E>>): Session<E>
    requires Possible(s, actions)
    decreases |actions|
  {
    if actions == [] then s else Then(Do(s, actions[0]), actions[1..])
  }

  function Opened<E>(): Session<E> {
    Session(Delivery([], true, false), [], [], false, false)
  }

  // What the queue holds, as elements come and go

  lemma {:induction false} EventsAppend<E>(queue: seq<Option<E>>, item: Option<E>)
    requires NoEnd(queue)
    ensures Events(queue + [item]) == Events(queue) + (if item == None then [] else [item.value])
    decreases |queue|
  {
    if queue != [] {
      assert (queue + [item])[0] == queue[0] && (queue + [item])[1..] == queue[1..] + [item];
      EventsAppend(queue[1..], item);
    } else {
      assert queue + [item] == [item];
    }
  }

  ghost predicate Ok<E>(s: Session<E>) {
    && |s.d.queue| <= EventBuffer
    && s.got + Events(s.d.queue) <= s.emitted
    && (s.d.lost <==> s.got + Events(s.d.queue) != s.emitted)
    && (s.d.open ==> !s.d.lost && !s.closed)
    && (!s.closed ==> NoEnd(s.d.queue) && !s.finished)
    && (s.closed && !s.finished ==> EndsOnce(s.d.queue))
    && (s.finished ==> s.d.queue == [])
  }

  lemma EmitKeeps<E>(s: Session<E>, e: E)
    requires Ok(s)
    ensures Ok(Do(s, Action.Emit(e)))
  {
    if s.d.open && |s.d.queue| < EventBuffer {
      EventsAppend(s.d.queue, Some(e));
      assert s.got + (Events(s.d.queue) + [e]) == s.got + Events(s.d.queue) + [e];
    }
  }

  lemma ReadKeeps<E>(s: Session<E>)
    requires Ok(s) && Can(s, Read)
    ensures Ok(Do(s, Read))
  {
    if s.d.queue[0] != None {
      var e := s.d.queue[0].value;
      assert s.got + Events(s.d.queue) == (s.got + [e]) + Events(s.d.queue[1..]);
    }
  }

  lemma CloseKeeps<E>(s: Session<E>)
    requires Ok(s) && Can(s, Action.Close)
    ensures Ok(Do(s, Action.Close))
  {
    if |s.d.queue| < EventBuffer {
      EventsAppend(s.d.queue, None);
    }
  }

  lemma {:induction false} EveryRunKeeps<E(!new)>(s: Session<E>, actions: seq<Action<E>>)
    requires Ok(s) && Possible(s, actions)
    ensures Ok(Then(s, actions))
    decreases |actions|
  {
    if actions != [] {
      match actions[0] {
        case Emit(e) => EmitKeeps(s, e);
        case Read => ReadKeeps(s);
        case Close => CloseKeeps(s);
        case Abandon =>
      }
      EveryRunKeeps(Do(s, actions[0]), actions[1..]);
    }
  }

  /**
   The reader gets a prefix of what was emitted; once it has finished, it lacks something exactly if the
   attempt says that delivery was lost. A closed attempt never leaves a reader waiting: its queue ends in
   the end marker until the reader has taken it.
   */
  lemma DeliveryIsPrefix<E(!new)>(actions: seq<Action<E>>)
    requires Possible(Opened<E>(), actions)
    ensures var s := Then(Opened<E>(), actions);
      && s.got <= s.emitted
      && (s.finished ==> (s.d.lost <==> s.got != s.emitted))
      && (s.closed && !s.finished ==> EndsOnce(s.d.queue) && Can(s, Read))
      && |s.d.queue| <= EventBuffer
  {
    EveryRunKeeps(Opened<E>(), actions);
    var s := Then(Opened<E>(), actions);
    assert s.got <= s.got + Events(s.d.queue);
  }
}
