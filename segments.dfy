/**
 * The segment deduplicator of the batch path: incoming route segments are appended to a
 * jam's accumulated list only when their `ID` is not yet present.
 */
module Segments {
  import opened Wrappers
  import opened Feed

  /** The identifiers present in a segment list; a segment without `ID` contributes `None`. */
  function Ids(segs: seq<Segment>): set<Option<int>> {
    set s | s in segs :: s.segId
  }

  /** The incoming segments whose identifier is not in `known`, in their incoming order. */
  function Unseen(known: set<Option<int>>, incoming: seq<Segment>): (added: seq<Segment>)
    ensures |added| <= |incoming|
  {
    if incoming == [] then []
    else (if incoming[0].segId in known then [] else [incoming[0]]) + Unseen(known, incoming[1..])
  }

  /** The accumulated list followed by the incoming segments with a new identifier. */
  function MergeSegments(held: seq<Segment>, incoming: seq<Segment>): (merged: seq<Segment>)
    ensures |held| <= |merged| && merged[..|held|] == held
  {
    held + Unseen(Ids(held), incoming)
  }

  /** A segment is added exactly when it is incoming and its identifier is unknown. */
  lemma {:induction false} UnseenMembers(known: set<Option<int>>, incoming: seq<Segment>)
    ensures forall s :: s in Unseen(known, incoming) <==> s in incoming && s.segId !in known
  {
    if incoming != [] {
      UnseenMembers(known, incoming[1..]);
      assert incoming == [incoming[0]] + incoming[1..];
    }
  }

  /** Filtering commutes with concatenation, so the additions keep the incoming order. */
  lemma {:induction false} UnseenConcat(known: set<Option<int>>, a: seq<Segment>, b: seq<Segment>)
    ensures Unseen(known, a + b) == Unseen(known, a) + Unseen(known, b)
  {
    if a == [] {
      assert a + b == b;
    } else {
      assert (a + b)[1..] == a[1..] + b;
      UnseenConcat(known, a[1..], b);
    }
  }

  /** Nothing is added when every incoming identifier is already known. */
  lemma {:induction false} UnseenOfKnown(known: set<Option<int>>, incoming: seq<Segment>)
    requires Ids(incoming) <= known
    ensures Unseen(known, incoming) == []
  {
    if incoming != [] {
      assert incoming[0] in incoming;
      assert Ids(incoming[1..]) <= Ids(incoming) by {
        forall s | s in incoming[1..] ensures s in incoming {
        }
      }
      UnseenOfKnown(known, incoming[1..]);
    }
  }

  /** After a merge the list knows the held identifiers and all incoming ones. */
  lemma MergeIds(held: seq<Segment>, incoming: seq<Segment>)
    ensures Ids(MergeSegments(held, incoming)) == Ids(held) + Ids(incoming)
  {
    var added := Unseen(Ids(held), incoming);
    UnseenMembers(Ids(held), incoming);
    var merged := held + added;
    forall id | id in Ids(held) + Ids(incoming) ensures id in Ids(merged) {
      if id !in Ids(held) {
        var s :| s in incoming && s.segId == id;
        assert s in added;
      } else {
        var s :| s in held && s.segId == id;
        assert s in merged;
      }
    }
  }

  /** Merging the same incoming list a second time adds nothing. */
  lemma MergeAgainAddsNothing(held: seq<Segment>, incoming: seq<Segment>)
    ensures MergeSegments(MergeSegments(held, incoming), incoming) == MergeSegments(held, incoming)
  {
    MergeIds(held, incoming);
    UnseenOfKnown(Ids(MergeSegments(held, incoming)), incoming);
  }
}
