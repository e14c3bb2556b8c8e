/**
 * The transcript list of public/app.js: entries are appended at the end, and
 * at most one of them is the SpeakingNote marker that
 * `currentSpeakingEntry` points at. Each entry carries the identity of its DOM
 * node, so removing the marker removes that node and no other.
 *
 * A `Panel` is the transcript element's children together with
 * `currentSpeakingEntry`; its member functions are `addTranscriptEntry`
 * (and `addFeedbackEntry`, which differs only in its fixed type),
 * `addSpeakingEntry`, `removeSpeakingEntry` and `clearTranscript`, and the
 * lemmas after them state what each one keeps and changes.
 */
module Transcript {
  import opened Wrappers

  /** The `transcript-<type>` class of an entry. */
  datatype Kind = System | Analyzing | Listening | Feedback | Error | Speaking

  /** The marker's text, and the entries that close and interrupt a turn. */
  const SpeakingNote: string := "AI is speaking"
  const FeedbackDeliveredNote: string := "Feedback delivered"
  const InterruptedNote: string := "You interrupted — listening..."

  datatype Entry = Entry(id: nat, kind: Kind, message: string, time: string)

  ghost predicate UniqueIds(entries: seq<Entry>) {
    forall i, j :: 0 <= i < j < |entries| ==> entries[i].id != entries[j].id
  }

  ghost predicate IdsBelow(entries: seq<Entry>, bound: nat) {
    forall i :: 0 <= i < |entries| ==> entries[i].id < bound
  }

  /** `currentSpeakingEntry` and the list agree: every speaking entry is the
      marked one, and a set marker names an entry of the list. */
  ghost predicate MarkerConsistent(entries: seq<Entry>, marker: Option<nat>) {
    && (forall i :: 0 <= i < |entries| && entries[i].kind == Speaking ==> marker == Some(entries[i].id))
    && (marker.Some? ==> exists i :: 0 <= i < |entries| && entries[i].id == marker.value && entries[i].kind == Speaking)
  }

  function CountKind(entries: seq<Entry>, k: Kind): (n: nat)
    ensures n <= |entries|
  {
    if entries == [] then 0
    else CountKind(entries[..|entries| - 1], k) + (if entries[|entries| - 1].kind == k then 1 else 0)
  }

  /** `node.remove()` on the entry with this id. */
  function Remove(entries: seq<Entry>, id: nat): (r: seq<Entry>)
    ensures |r| <= |entries|
  {
    if entries == [] then []
    else if entries[|entries| - 1].id == id then Remove(entries[..|entries| - 1], id)
    else Remove(entries[..|entries| - 1], id) + [entries[|entries| - 1]]
  }

  /** Removal keeps exactly the entries with another id. */
  lemma {:induction false} RemoveMembers(entries: seq<Entry>, id: nat)
    ensures forall e :: e in Remove(entries, id) <==> e in entries && e.id != id
    decreases |entries|
  {
    if entries != [] {
      var init := entries[..|entries| - 1];
      RemoveMembers(init, id);
      assert entries == init + [entries[|entries| - 1]];
    }
  }

  lemma {:induction false} CountAppend(a: seq<Entry>, b: seq<Entry>, k: Kind)
    ensures CountKind(a + b, k) == CountKind(a, k) + CountKind(b, k)
    decreases |b|
  {
    if b == [] {
      assert a + b == a;
    } else {
      CountAppend(a, b[..|b| - 1], k);
      assert (a + b)[..|a + b| - 1] == a + b[..|b| - 1];
    }
  }

  lemma {:induction false} RemoveAbsent(entries: seq<Entry>, id: nat)
    requires forall i :: 0 <= i < |entries| ==> entries[i].id != id
    ensures Remove(entries, id) == entries
    decreases |entries|
  {
    if entries != [] {
      RemoveAbsent(entries[..|entries| - 1], id);
      assert entries[..|entries| - 1] + [entries[|entries| - 1]] == entries;
    }
  }

  /** Removing an entry by its id takes out exactly that entry and keeps the
      others in their order. */
  lemma {:induction false} RemoveAt(entries: seq<Entry>, p: nat)
    requires UniqueIds(entries) && p < |entries|
    ensures Remove(entries, entries[p].id) == entries[..p] + entries[p + 1..]
    decreases |entries|
  {
    var id := entries[p].id;
    var last := |entries| - 1;
    if p == last {
      RemoveAbsent(entries[..last], id);
    } else {
      RemoveAt(entries[..last], p);
      assert entries[..last][..p] == entries[..p];
      assert entries[..last][p + 1..] + [entries[last]] == entries[p + 1..];
    }
  }

  lemma {:induction false} CountSplit(entries: seq<Entry>, p: nat, k: Kind)
    requires p < |entries|
    ensures CountKind(entries, k) ==
      CountKind(entries[..p] + entries[p + 1..], k) + (if entries[p].kind == k then 1 else 0)
  {
    assert entries == entries[..p] + [entries[p]] + entries[p + 1..];
    CountAppend(entries[..p] + [entries[p]], entries[p + 1..], k);
    CountAppend(entries[..p], [entries[p]], k);
    CountAppend(entries[..p], entries[p + 1..], k);
    assert CountKind([entries[p]], k) == (if entries[p].kind == k then 1 else 0) by {
      assert [entries[p]][..0] == [];
    }
  }

  lemma {:induction false} NoneOfKind(entries: seq<Entry>, k: Kind)
    requires forall i :: 0 <= i < |entries| ==> entries[i].kind != k
    ensures CountKind(entries, k) == 0
    decreases |entries|
  {
    if entries != [] {
      NoneOfKind(entries[..|entries| - 1], k);
    }
  }

  lemma {:induction false} OnlyOneOfKind(entries: seq<Entry>, p: nat, k: Kind)
    requires p < |entries| && entries[p].kind == k
    requires forall i :: 0 <= i < |entries| && i != p ==> entries[i].kind != k
    ensures CountKind(entries, k) == 1
  {
    CountSplit(entries, p, k);
    var rest := entries[..p] + entries[p + 1..];
    forall i | 0 <= i < |rest| ensures rest[i].kind != k {
      if i < p {
        assert rest[i] == entries[i];
      } else {
        assert rest[i] == entries[i + 1];
      }
    }
    NoneOfKind(rest, k);
  }

  /** At most one speaking marker is ever in the list. */
  lemma AtMostOneSpeaking(entries: seq<Entry>, marker: Option<nat>)
    requires UniqueIds(entries) && MarkerConsistent(entries, marker)
    ensures CountKind(entries, Speaking) <= 1
    ensures marker.None? <==> CountKind(entries, Speaking) == 0
  {
    if marker.None? {
      NoneOfKind(entries, Speaking);
    } else {
      var p :| 0 <= p < |entries| && entries[p].id == marker.value && entries[p].kind == Speaking;
      OnlyOneOfKind(entries, p, Speaking);
    }
  }

  /** What is left after deleting position p: ids stay distinct, and any
      kind that only p had is gone. */
  lemma DeleteAt(entries: seq<Entry>, p: nat, k: Kind)
    requires UniqueIds(entries) && p < |entries|
    requires forall i :: 0 <= i < |entries| && i != p ==> entries[i].kind != k
    ensures var r := entries[..p] + entries[p + 1..];
      UniqueIds(r) && forall i :: 0 <= i < |r| ==> r[i].kind != k
  {
    var r := entries[..p] + entries[p + 1..];
    forall i | 0 <= i < |r| ensures r[i] == entries[if i < p then i else i + 1] {
    }
  }

  /** Removing the marked entry leaves no speaking entry, one entry fewer,
      and every other kind's count as it was. */
  lemma RemoveMarker(entries: seq<Entry>, id: nat)
    requires UniqueIds(entries) && MarkerConsistent(entries, Some(id))
    ensures var r := Remove(entries, id);
      && |r| == |entries| - 1
      && MarkerConsistent(r, None)
      && UniqueIds(r)
      && CountKind(r, Speaking) == 0
      && forall k :: k != Speaking ==> CountKind(r, k) == CountKind(entries, k)
  {
    var p :| 0 <= p < |entries| && entries[p].id == id && entries[p].kind == Speaking;
    RemoveAt(entries, p);
    var r := Remove(entries, id);
    forall k | k != Speaking ensures CountKind(r, k) == CountKind(entries, k) {
      CountSplit(entries, p, k);
    }
    assert forall i :: 0 <= i < |entries| && i != p ==> entries[i].kind != Speaking;
    DeleteAt(entries, p, Speaking);
    NoneOfKind(r, Speaking);
  }

  /** Appending a non-speaking entry with a fresh id keeps the marker
      consistent, and adds one to its kind's count only. */
  lemma AppendEntry(entries: seq<Entry>, marker: Option<nat>, e: Entry, bound: nat)
    requires UniqueIds(entries) && IdsBelow(entries, bound) && MarkerConsistent(entries, marker)
    requires e.kind != Speaking && e.id == bound
    ensures var r := entries + [e];
      && UniqueIds(r) && IdsBelow(r, bound + 1) && MarkerConsistent(r, marker)
      && forall k :: CountKind(r, k) == CountKind(entries, k) + (if k == e.kind then 1 else 0)
  {
    var r := entries + [e];
    assert r[..|r| - 1] == entries;
    if marker.Some? {
      var i :| 0 <= i < |entries| && entries[i].id == marker.value && entries[i].kind == Speaking;
      assert r[i] == entries[i];
    }
  }

  /** Appending the speaking marker while none is set: it becomes the one
      speaking entry, and no other kind's count changes. */
  lemma AppendMarker(entries: seq<Entry>, e: Entry, bound: nat)
    requires UniqueIds(entries) && IdsBelow(entries, bound) && MarkerConsistent(entries, None)
    requires e.kind == Speaking && e.id == bound
    ensures var r := entries + [e];
      && UniqueIds(r) && IdsBelow(r, bound + 1) && MarkerConsistent(r, Some(bound))
      && CountKind(r, Speaking) == 1
      && forall k :: k != Speaking ==> CountKind(r, k) == CountKind(entries, k)
  {
    var r := entries + [e];
    assert r[..|r| - 1] == entries;
    assert r[|r| - 1] == e;
    AtMostOneSpeaking(entries, None);
  }

  /** The panel invariant: node ids are distinct and already issued, and the
      marker variable and the list agree. */
  ghost predicate Consistent(entries: seq<Entry>, nextId: nat, marker: Option<nat>) {
    UniqueIds(entries) && IdsBelow(entries, nextId) && MarkerConsistent(entries, marker)
  }

  lemma AppendPreserves(entries: seq<Entry>, marker: Option<nat>, e: Entry, bound: nat)
    requires e.kind != Speaking && e.id == bound
    ensures Consistent(entries, bound, marker) ==> Consistent(entries + [e], bound + 1, marker)
  {
    if Consistent(entries, bound, marker) {
      AppendEntry(entries, marker, e, bound);
    }
  }

  lemma MarkPreserves(entries: seq<Entry>, e: Entry, bound: nat)
    requires e.kind == Speaking && e.id == bound
    ensures Consistent(entries, bound, None) ==> Consistent(entries + [e], bound + 1, Some(bound))
  {
    if Consistent(entries, bound, None) {
      AppendMarker(entries, e, bound);
    }
  }

  lemma UnmarkPreserves(entries: seq<Entry>, bound: nat, id: nat)
    ensures Consistent(entries, bound, Some(id)) ==> Consistent(Remove(entries, id), bound, None)
  {
    if Consistent(entries, bound, Some(id)) {
      RemoveMarker(entries, id);
      RemoveMembers(entries, id);
    }
  }

  /** The transcript element's children, the number of entry nodes created
      so far (the next node's id) and `currentSpeakingEntry` (by node id). */
  datatype Panel = Panel(entries: seq<Entry>, nextId: nat, marker: Option<nat>)
  {
    /** Node ids are distinct and already issued, and the marker variable
        and the list agree. */
    ghost predicate Valid() {
      Consistent(entries, nextId, marker)
    }

    /** `addTranscriptEntry(type, message)` (and `addFeedbackEntry`): a new
        node stamped with `time` goes at the end. */
    function Add(kind: Kind, message: string, time: string): (r: Panel)
      requires kind != Speaking
      ensures Valid() ==> r.Valid()
    {
      AppendPreserves(entries, marker, Entry(nextId, kind, message, time), nextId);
      Panel(entries + [Entry(nextId, kind, message, time)], nextId + 1, marker)
    }

    /** `addSpeakingEntry()`: nothing when a marker is shown, otherwise a new
        speaking node at the end that becomes the marker. */
    function AddSpeaking(time: string): (r: Panel)
      ensures Valid() ==> r.Valid()
    {
      if marker.Some? then this
      else
        MarkPreserves(entries, Entry(nextId, Speaking, SpeakingNote, time), nextId);
        Panel(entries + [Entry(nextId, Speaking, SpeakingNote, time)], nextId + 1, Some(nextId))
    }

    /** `removeSpeakingEntry()`: the marked node leaves the list and the
        marker is cleared. */
    function RemoveSpeaking(): (r: Panel)
      ensures Valid() ==> r.Valid()
    {
      if marker.Some? then
        UnmarkPreserves(entries, nextId, marker.value);
        Panel(Remove(entries, marker.value), nextId, None)
      else this
    }

    /** `clearTranscript()`. */
    function Cleared(): (r: Panel)
      ensures r.Valid()
    {
      Panel([], nextId, None)
    }

    /** A text part of a model turn: the marker goes and the text follows as
        feedback. */
    function WithText(text: string, time: string): Panel {
      RemoveSpeaking().Add(Feedback, text, time)
    }

    /** `turnComplete`: the marker goes, and a turn that carried no text is
        closed by a system note. */
    function TurnClosed(hadText: bool, time: string): Panel {
      if hadText then RemoveSpeaking() else RemoveSpeaking().Add(System, FeedbackDeliveredNote, time)
    }

    /** `interrupted`: the marker goes and a listening note follows. */
    function Interrupted(time: string): Panel {
      RemoveSpeaking().Add(Listening, InterruptedNote, time)
    }

    /** `addTranscriptEntry` once per note, in order, all stamped `time`. */
    function AddAll(notes: seq<(Kind, string)>, time: string): (r: Panel)
      requires NoSpeaking(notes)
      ensures Valid() ==> r.Valid()
      ensures r.marker == marker
      decreases |notes|
    {
      if notes == [] then this
      else AddAll(notes[..|notes| - 1], time).Add(notes[|notes| - 1].0, notes[|notes| - 1].1, time)
    }
  }

  /** Notes that `addTranscriptEntry` may write: none is the speaking marker. */
  predicate NoSpeaking(notes: seq<(Kind, string)>) {
    forall i :: 0 <= i < |notes| ==> notes[i].0 != Speaking
  }

  /** Appending an entry: the panel stays valid, the new entry is the last
      one with the given type, message and time, the marker is untouched,
      and exactly its type's count grows by one. */
  lemma AddKeeps(p: Panel, kind: Kind, message: string, time: string)
    requires p.Valid() && kind != Speaking
    ensures var r := p.Add(kind, message, time);
      && r.Valid() && r.marker == p.marker
      && |r.entries| == |p.entries| + 1 && r.entries[..|p.entries|] == p.entries
      && r.entries[|p.entries|].kind == kind && r.entries[|p.entries|].message == message
      && r.entries[|p.entries|].time == time
      && Notes(r.entries) == Notes(p.entries) + [(kind, message)]
      && forall k :: CountKind(r.entries, k) == CountKind(p.entries, k) + (if k == kind then 1 else 0)
  {
    var e := Entry(p.nextId, kind, message, time);
    AppendEntry(p.entries, p.marker, e, p.nextId);
    var r := p.Add(kind, message, time);
    assert r.entries[..|p.entries|] == p.entries;
    NotesSnoc(p.entries, e);
  }

  /** Showing the marker: afterwards exactly one speaking entry is in the
      list and the marker is set; a second call changes nothing; no other
      type's count changes. */
  lemma AddSpeakingKeeps(p: Panel, time: string)
    requires p.Valid()
    ensures var r := p.AddSpeaking(time);
      && r.Valid() && r.marker.Some? && CountKind(r.entries, Speaking) == 1
      && r.AddSpeaking(time) == r
      && (p.marker.Some? ==> r == p)
      && (p.marker.None? ==> r.entries == p.entries + [Entry(p.nextId, Speaking, SpeakingNote, time)])
      && forall k :: k != Speaking ==> CountKind(r.entries, k) == CountKind(p.entries, k)
  {
    if p.marker.Some? {
      AtMostOneSpeaking(p.entries, p.marker);
    } else {
      AppendMarker(p.entries, Entry(p.nextId, Speaking, SpeakingNote, time), p.nextId);
    }
  }

  /** Hiding the marker: afterwards no speaking entry is left and the marker
      is clear; the one marked node, and nothing else, has left the list, in
      place; no other type's count changes. */
  lemma RemoveSpeakingKeeps(p: Panel)
    requires p.Valid()
    ensures var r := p.RemoveSpeaking();
      && r.Valid() && r.marker.None? && CountKind(r.entries, Speaking) == 0
      && r.nextId == p.nextId
      && |r.entries| == |p.entries| - CountKind(p.entries, Speaking)
      && (forall i :: 0 <= i < |p.entries| && p.entries[i].kind == Speaking ==>
            r.entries == p.entries[..i] + p.entries[i + 1..])
      && (forall k :: k != Speaking ==> CountKind(r.entries, k) == CountKind(p.entries, k))
      && (p.marker.None? ==> r == p)
  {
    AtMostOneSpeaking(p.entries, p.marker);
    if p.marker.Some? {
      RemoveMarker(p.entries, p.marker.value);
      forall i | 0 <= i < |p.entries| && p.entries[i].kind == Speaking
        ensures p.RemoveSpeaking().entries == p.entries[..i] + p.entries[i + 1..]
      {
        RemoveAt(p.entries, i);
      }
    }
  }

  /** After a text part no marker is shown and exactly one feedback entry
      has been added; no other type's count changes. */
  lemma WithTextKeeps(p: Panel, text: string, time: string)
    requires p.Valid()
    ensures var r := p.WithText(text, time);
      && r.Valid() && r.marker.None? && CountKind(r.entries, Speaking) == 0
      && r.entries[|r.entries| - 1] == Entry(p.nextId, Feedback, text, time)
      && forall k :: k != Speaking ==> CountKind(r.entries, k) == CountKind(p.entries, k) + (if k == Feedback then 1 else 0)
  {
    RemoveSpeakingKeeps(p);
    AddKeeps(p.RemoveSpeaking(), Feedback, text, time);
  }

  /** After `turnComplete` no marker is shown, and one system entry has been
      added exactly when the turn carried no text. */
  lemma TurnClosedKeeps(p: Panel, hadText: bool, time: string)
    requires p.Valid()
    ensures var r := p.TurnClosed(hadText, time);
      && r.Valid() && r.marker.None? && CountKind(r.entries, Speaking) == 0
      && forall k :: k != Speaking ==>
           CountKind(r.entries, k) == CountKind(p.entries, k) + (if k == System && !hadText then 1 else 0)
  {
    RemoveSpeakingKeeps(p);
    if !hadText {
      AddKeeps(p.RemoveSpeaking(), System, FeedbackDeliveredNote, time);
    }
  }

  /** After an interruption no marker is shown and exactly one listening
      entry has been added. */
  lemma InterruptedKeeps(p: Panel, time: string)
    requires p.Valid()
    ensures var r := p.Interrupted(time);
      && r.Valid() && r.marker.None? && CountKind(r.entries, Speaking) == 0
      && forall k :: k != Speaking ==> CountKind(r.entries, k) == CountKind(p.entries, k) + (if k == Listening then 1 else 0)
  {
    RemoveSpeakingKeeps(p);
    AddKeeps(p.RemoveSpeaking(), Listening, InterruptedNote, time);
  }

  /** Clearing leaves an empty, valid panel with no marker. */
  lemma ClearedKeeps(p: Panel)
    requires p.Valid()
    ensures var r := p.Cleared(); r.Valid() && r.entries == [] && r.marker.None? && r.nextId == p.nextId
  {
  }

  /** The (type, message) pairs of a transcript, in order. */
  function Notes(entries: seq<Entry>): (ns: seq<(Kind, string)>)
    ensures |ns| == |entries|
  {
    seq(|entries|, i requires 0 <= i < |entries| => (entries[i].kind, entries[i].message))
  }

  lemma NotesSnoc(entries: seq<Entry>, e: Entry)
    ensures Notes(entries + [e]) == Notes(entries) + [(e.kind, e.message)]
  {
    var a, b := Notes(entries + [e]), Notes(entries) + [(e.kind, e.message)];
    assert forall i :: 0 <= i < |a| ==> a[i] == b[i];
  }

  /** One more note is one more `Add`. */
  lemma AddAllSnoc(p: Panel, notes: seq<(Kind, string)>, n: (Kind, string), time: string)
    requires NoSpeaking(notes) && n.0 != Speaking
    ensures NoSpeaking(notes + [n])
    ensures p.AddAll(notes + [n], time) == p.AddAll(notes, time).Add(n.0, n.1, time)
  {
    assert (notes + [n])[..|notes|] == notes;
  }

  /** Notes written in two runs give the panel one run of all of them gives. */
  lemma {:induction false} AddAllAppend(p: Panel, a: seq<(Kind, string)>, b: seq<(Kind, string)>, time: string)
    requires NoSpeaking(a) && NoSpeaking(b)
    ensures NoSpeaking(a + b)
    ensures p.AddAll(a + b, time) == p.AddAll(a, time).AddAll(b, time)
    decreases |b|
  {
    assert forall i :: 0 <= i < |a + b| ==> (a + b)[i].0 != Speaking by {
      forall i | 0 <= i < |a + b| ensures (a + b)[i].0 != Speaking {
        if i >= |a| {
          assert (a + b)[i] == b[i - |a|];
        }
      }
    }
    if b == [] {
      assert a + b == a;
    } else {
      var init := b[..|b| - 1];
      AddAllAppend(p, a, init, time);
      assert (a + b)[..|a + b| - 1] == a + init;
    }
  }

  /** Read back as (type, message) pairs, the list after `AddAll` is the old
      list followed by the notes. */
  lemma {:induction false} AddAllNotes(p: Panel, notes: seq<(Kind, string)>, time: string)
    requires NoSpeaking(notes)
    ensures Notes(p.AddAll(notes, time).entries) == Notes(p.entries) + notes
    decreases |notes|
  {
    if notes == [] {
      assert Notes(p.entries) + notes == Notes(p.entries);
    } else {
      var init, n := notes[..|notes| - 1], notes[|notes| - 1];
      AddAllNotes(p, init, time);
      var q := p.AddAll(init, time);
      NotesSnoc(q.entries, Entry(q.nextId, n.0, n.1, time));
      assert notes == init + [n];
    }
  }

  /** The entries `AddAll` appends: one per note, with consecutive ids from
      `first`. */
  function Stamped(notes: seq<(Kind, string)>, first: nat, time: string): (r: seq<Entry>)
    ensures |r| == |notes|
  {
    seq(|notes|, i requires 0 <= i < |notes| => Entry(first + i, notes[i].0, notes[i].1, time))
  }

  /** `AddAll` written out: the old entries, then the notes stamped with the
      next ids, and the marker untouched. */
  lemma {:induction false} AddAllStamped(p: Panel, notes: seq<(Kind, string)>, time: string)
    requires NoSpeaking(notes)
    ensures p.AddAll(notes, time) == Panel(p.entries + Stamped(notes, p.nextId, time), p.nextId + |notes|, p.marker)
    decreases |notes|
  {
    if notes == [] {
      assert p.entries + Stamped(notes, p.nextId, time) == p.entries;
    } else {
      var init, n := notes[..|notes| - 1], notes[|notes| - 1];
      AddAllStamped(p, init, time);
      var e := Entry(p.nextId + |init|, n.0, n.1, time);
      assert Stamped(notes, p.nextId, time) == Stamped(init, p.nextId, time) + [e];
      assert p.entries + Stamped(notes, p.nextId, time) == (p.entries + Stamped(init, p.nextId, time)) + [e];
    }
  }

}
