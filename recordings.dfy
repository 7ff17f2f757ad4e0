/** Audio story recordings and the recording bin: the active list, the
    soft-delete bin, and the operations that move, restore, purge and approve
    recordings by id. */
module Recordings {
  import opened Common

  /** A recording. The audio is an opaque payload; `approved` is absent
      (None) until the story is approved. */
  datatype Recording = Recording(
    id: string,
    name: string,
    duration: nat,
    timestamp: int,
    audio: seq<bv8>,
    transcription: Option<string>,
    story: Option<string>,
    approved: Option<bool>)

  predicate HasId(s: seq<Recording>, id: string)
  {
    exists i :: 0 <= i < |s| && s[i].id == id
  }

  /** `s.findIndex(rec => rec.id === id)`: the first position holding the id. */
  function IndexOf(s: seq<Recording>, id: string): (r: Option<nat>)
    ensures r.None? <==> !HasId(s, id)
    ensures r.Some? ==> r.value < |s| && s[r.value].id == id
    ensures r.Some? ==> forall j :: 0 <= j < r.value ==> s[j].id != id
  {
    FirstIndex(s, (rec: Recording) => rec.id == id)
  }

  /** `s.find(rec => rec.id === id)`: the first recording with the id. */
  function FindById(s: seq<Recording>, id: string): (r: Option<Recording>)
    ensures r.None? <==> !HasId(s, id)
    ensures r.Some? ==> r.value in s && r.value.id == id
    ensures r.Some? ==> exists i :: 0 <= i < |s| && s[i] == r.value && forall j :: 0 <= j < i ==> s[j].id != id
  {
    match IndexOf(s, id)
    case None => None
    case Some(i) => Some(s[i])
  }

  /** `s.filter(rec => rec.id !== id)`: every recording with the id removed,
      the others kept. */
  function Without(s: seq<Recording>, id: string): (r: seq<Recording>)
    ensures |r| <= |s|
    ensures forall x :: x in r <==> x in s && x.id != id
    ensures !HasId(s, id) ==> r == s
    ensures HasId(s, id) ==> |r| < |s|
  {
    if s == [] then []
    else if s[0].id == id then Without(s[1..], id)
    else [s[0]] + Without(s[1..], id)
  }

  /** Filtering distributes over concatenation, so the recordings that stay
      keep their relative order. */
  lemma {:induction false} WithoutConcat(a: seq<Recording>, b: seq<Recording>, id: string)
    ensures Without(a + b, id) == Without(a, id) + Without(b, id)
  {
    if a != [] {
      assert (a + b)[1..] == a[1..] + b;
      WithoutConcat(a[1..], b, id);
    } else {
      assert a + b == b;
    }
  }

  /** No two recordings of s share an id. */
  predicate UniqueIds(s: seq<Recording>)
  {
    forall i, j :: 0 <= i < j < |s| ==> s[i].id != s[j].id
  }

  /** No recording of a shares its id with a recording of b. */
  predicate DisjointIds(a: seq<Recording>, b: seq<Recording>)
  {
    forall x, y :: x in a && y in b ==> x.id != y.id
  }

  lemma UniqueConcat(a: seq<Recording>, b: seq<Recording>)
    ensures UniqueIds(a + b) <==> UniqueIds(a) && UniqueIds(b) && DisjointIds(a, b)
  {
    var s := a + b;
    if UniqueIds(s) {
      forall i, j | 0 <= i < j < |a| ensures a[i].id != a[j].id {
        assert s[i] == a[i] && s[j] == a[j];
      }
      forall i, j | 0 <= i < j < |b| ensures b[i].id != b[j].id {
        assert s[|a| + i] == b[i] && s[|a| + j] == b[j];
      }
      forall x, y | x in a && y in b ensures x.id != y.id {
        var i :| 0 <= i < |a| && a[i] == x;
        var j :| 0 <= j < |b| && b[j] == y;
        assert s[i] == x && s[|a| + j] == y;
      }
    }
    if UniqueIds(a) && UniqueIds(b) && DisjointIds(a, b) {
      forall i, j | 0 <= i < j < |s| ensures s[i].id != s[j].id {
        if j < |a| {
          assert s[i] == a[i] && s[j] == a[j];
        } else if i >= |a| {
          assert s[i] == b[i - |a|] && s[j] == b[j - |a|];
        } else {
          assert s[i] == a[i] && a[i] in a;
          assert s[j] == b[j - |a|] && b[j - |a|] in b;
          assert a[i].id != b[j - |a|].id;
        }
      }
    }
  }

  /** Filtering keeps ids unique. */
  lemma {:induction false} WithoutUnique(s: seq<Recording>, id: string)
    requires UniqueIds(s)
    ensures UniqueIds(Without(s, id))
  {
    if s != [] {
      assert UniqueIds(s[1..]) by {
        forall i, j | 0 <= i < j < |s[1..]| ensures s[1..][i].id != s[1..][j].id {
          assert s[1..][i] == s[i + 1] && s[1..][j] == s[j + 1];
        }
      }
      WithoutUnique(s[1..], id);
      if s[0].id != id {
        assert DisjointIds([s[0]], Without(s[1..], id)) by {
          forall y | y in Without(s[1..], id) ensures s[0].id != y.id {
            var k :| 0 <= k < |s[1..]| && s[1..][k] == y;
            assert s[k + 1] == y;
          }
        }
        UniqueConcat([s[0]], Without(s[1..], id));
      }
    }
  }

  /** With unique ids, removing an id that is present removes exactly one
      recording. */
  lemma {:induction false} WithoutUniqueLength(s: seq<Recording>, id: string)
    requires UniqueIds(s) && HasId(s, id)
    ensures |Without(s, id)| == |s| - 1
  {
    if s[0].id == id {
      assert !HasId(s[1..], id) by {
        forall k | 0 <= k < |s[1..]| ensures s[1..][k].id != id {
          assert s[1..][k] == s[k + 1];
        }
      }
    } else {
      var i :| 0 <= i < |s| && s[i].id == id;
      assert s[1..][i - 1].id == id;
      assert UniqueIds(s[1..]) by {
        forall a, b | 0 <= a < b < |s[1..]| ensures s[1..][a].id != s[1..][b].id {
          assert s[1..][a] == s[a + 1] && s[1..][b] == s[b + 1];
        }
      }
      WithoutUniqueLength(s[1..], id);
    }
  }

  /** Moving the recording with a given id from one list to the end of the
      other (delete to the bin, or restore from it) keeps the combined count
      and keeps ids unique across both lists, provided they were unique. */
  lemma MovePreservesUniqueness(source: seq<Recording>, target: seq<Recording>, id: string)
    requires UniqueIds(source + target) && HasId(source, id)
    ensures var x := FindById(source, id).value;
      && |Without(source, id)| + |target + [x]| == |source| + |target|
      && UniqueIds(Without(source, id) + (target + [x]))
      && UniqueIds((target + [x]) + Without(source, id))
  {
    var x := FindById(source, id).value;
    UniqueConcat(source, target);
    WithoutUniqueLength(source, id);
    WithoutUnique(source, id);
    var rest := Without(source, id);
    var moved := target + [x];
    assert UniqueIds(moved) by {
      UniqueConcat(target, [x]);
    }
    assert DisjointIds(rest, moved);
    assert DisjointIds(moved, rest);
    UniqueConcat(rest, moved);
    UniqueConcat(moved, rest);
  }

  /** Purging an id from one list keeps ids unique across both lists. */
  lemma PurgePreservesUniqueness(kept: seq<Recording>, bin: seq<Recording>, id: string)
    requires UniqueIds(kept + bin)
    ensures UniqueIds(kept + Without(bin, id))
  {
    UniqueConcat(kept, bin);
    WithoutUnique(bin, id);
    UniqueConcat(kept, Without(bin, id));
  }

  /** `s.map(rec => rec.id === id ? { ...rec, approved: true } : rec)`. */
  function Approve(s: seq<Recording>, id: string): (r: seq<Recording>)
    ensures |r| == |s|
    ensures forall i :: 0 <= i < |s| ==>
      r[i].approved == (if s[i].id == id then Some(true) else s[i].approved)
    ensures forall i :: 0 <= i < |s| ==> r[i].(approved := s[i].approved) == s[i]
  {
    if s == [] then []
    else [if s[0].id == id then s[0].(approved := Some(true)) else s[0]] + Approve(s[1..], id)
  }

  /** Approving twice is approving once. */
  lemma ApproveIdempotent(s: seq<Recording>, id: string)
    ensures Approve(Approve(s, id), id) == Approve(s, id)
  {
    var once := Approve(s, id);
    var twice := Approve(once, id);
    forall i | 0 <= i < |s| ensures twice[i] == once[i] {
      assert twice[i].(approved := once[i].approved) == once[i];
    }
  }

  /** Approving keeps the ids, so the ids stay unique. */
  lemma ApproveKeepsIds(s: seq<Recording>, id: string)
    ensures forall i :: 0 <= i < |s| ==> Approve(s, id)[i].id == s[i].id
  {
    var r := Approve(s, id);
    forall i | 0 <= i < |s| ensures r[i].id == s[i].id {
      assert r[i].(approved := s[i].approved) == s[i];
    }
  }

  // ---------------------------------------------------------------------
  // m:ss durations
  // ---------------------------------------------------------------------

  /** A number below 100 padded to two characters reads back as itself. */
  lemma TwoDigits(n: nat)
    requires n < 100
    ensures var p := PadStart(NatToString(n), 2, '0');
      |p| == 2 && AllDigits(p) && DigitsValue(p) == n
  {
    var s := NatToString(n);
    NatToStringRoundTrip(n);
    if n >= 10 {
      NatToStringLength(n, 1);
    } else {
      assert PadStart(s, 2, '0') == "0" + s;
    }
  }

  /** `${Math.floor(s / 60)}:${(s % 60).toString().padStart(2, '0')}` for a
      whole number of seconds: the minutes, a colon and exactly two digits of
      seconds that read back as s % 60. */
  function FormatTime(seconds: nat): (t: string)
    ensures var m := NatToString(seconds / 60);
      && |t| == |m| + 3
      && t[..|m|] == m
      && t[|m|] == ':'
      && AllDigits(t[|m| + 1..])
      && DigitsValue(t[|m| + 1..]) == seconds % 60
  {
    var m := NatToString(seconds / 60);
    var p := PadStart(NatToString(seconds % 60), 2, '0');
    TwoDigits(seconds % 60);
    assert (m + ":" + p)[..|m|] == m;
    assert (m + ":" + p)[|m| + 1..] == p;
    m + ":" + p
  }

  /** The whole text reads back as the number of seconds. */
  lemma FormatTimeRoundTrip(seconds: nat)
    ensures var t := FormatTime(seconds);
      var m := NatToString(seconds / 60);
      DigitsValue(t[..|m|]) * 60 + DigitsValue(t[|m| + 1..]) == seconds
  {
    NatToStringRoundTrip(seconds / 60);
  }

  // ---------------------------------------------------------------------
  // The recording bin panel
  // ---------------------------------------------------------------------

  /** The recording-bin panel's state: the active recordings, the soft-delete
      bin, and whether the story review dialog is open. */
  class RecordingLibrary {
    var recordings: seq<Recording>
    var deleted: seq<Recording>
    var showStoryModal: bool

    constructor (saved: seq<Recording>, bin: seq<Recording>)
      ensures recordings == saved && deleted == bin && !showStoryModal
    {
      recordings := saved;
      deleted := bin;
      showStoryModal := false;
    }

    /** Moves a recording to the bin: every recording with the id leaves the
        list and the first of them goes to the end of the bin. An unknown id
        changes nothing. */
    method DeleteRecording(id: string)
      modifies this
      ensures match FindById(old(recordings), id)
        case None => recordings == old(recordings) && deleted == old(deleted)
        case Some(x) => recordings == Without(old(recordings), id) && deleted == old(deleted) + [x]
      ensures old(UniqueIds(recordings + deleted)) ==>
        UniqueIds(recordings + deleted) && |recordings| + |deleted| == old(|recordings| + |deleted|)
      ensures showStoryModal == old(showStoryModal)
    {
      var found := FindById(recordings, id);
      if found.Some? {
        if UniqueIds(recordings + deleted) {
          MovePreservesUniqueness(recordings, deleted, id);
        }
        recordings := Without(recordings, id);
        deleted := deleted + [found.value];
      }
    }

    /** The mirror of DeleteRecording: the first binned recording with the id
        goes back to the end of the list and every binned copy leaves the bin.
        An unknown id changes nothing. */
    method RestoreRecording(id: string)
      modifies this
      ensures match FindById(old(deleted), id)
        case None => recordings == old(recordings) && deleted == old(deleted)
        case Some(x) => deleted == Without(old(deleted), id) && recordings == old(recordings) + [x]
      ensures old(UniqueIds(recordings + deleted)) ==>
        UniqueIds(recordings + deleted) && |recordings| + |deleted| == old(|recordings| + |deleted|)
      ensures showStoryModal == old(showStoryModal)
    {
      var found := FindById(deleted, id);
      if found.Some? {
        if UniqueIds(recordings + deleted) {
          UniqueConcat(recordings, deleted);
          UniqueConcat(deleted, recordings);
          MovePreservesUniqueness(deleted, recordings, id);
        }
        deleted := Without(deleted, id);
        recordings := recordings + [found.value];
      }
    }

    /** Removes every binned recording with the id; the active list is never
        touched. */
    method PermanentlyDelete(id: string)
      modifies this
      ensures deleted == Without(old(deleted), id)
      ensures recordings == old(recordings) && showStoryModal == old(showStoryModal)
      ensures old(UniqueIds(recordings + deleted)) ==> UniqueIds(recordings + deleted)
    {
      if UniqueIds(recordings + deleted) {
        PurgePreservesUniqueness(recordings, deleted, id);
      }
      deleted := Without(deleted, id);
    }

    /** Marks the stories of the recordings with the id as approved and closes
        the review dialog; the bin is not touched. */
    method ApproveStory(id: string)
      modifies this
      ensures recordings == Approve(old(recordings), id)
      ensures deleted == old(deleted) && !showStoryModal
    {
      recordings := Approve(recordings, id);
      showStoryModal := false;
    }
  }
}
