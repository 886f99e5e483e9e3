/** An append-only log of numbered events, as every kind of run keeps one. */
module EventLog {

  datatype Logged<+Kind> = Event(sequenceNo: nat, kind: Kind)

  /** The highest number given so far. */
  function MaxSequence<Kind>(events: seq<Logged<Kind>>): nat {
    if events == [] then 0
    else
      var front, last := MaxSequence(events[..|events| - 1]), events[|events| - 1].sequenceNo;
      if last > front then last else front
  }

  /** It is the number of some event, and none is higher. */
  lemma {:induction false} MaxIsHighest<Kind>(events: seq<Logged<Kind>>)
    ensures forall e :: e in events ==> e.sequenceNo <= MaxSequence(events)
    ensures events != [] ==> exists e :: e in events && e.sequenceNo == MaxSequence(events)
  {
    if events != [] {
      var front, last := events[..|events| - 1], events[|events| - 1];
      assert events == front + [last];
      MaxIsHighest(front);
      if MaxSequence(events) == last.sequenceNo {
        assert last in events;
      } else {
        var e :| e in front && e.sequenceNo == MaxSequence(front);
        assert e in events;
      }
    }
  }

  /** Numbers run from one, without a gap. */
  predicate Numbered<Kind>(events: seq<Logged<Kind>>) {
    forall i :: 0 <= i < |events| ==> events[i].sequenceNo == i + 1
  }

  lemma {:induction false} NumberedMax<Kind>(events: seq<Logged<Kind>>)
    requires Numbered(events)
    ensures MaxSequence(events) == |events|
  {
    if events != [] { NumberedMax(events[..|events| - 1]); }
  }
}
