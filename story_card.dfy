/** The welcome card's story recorder: a finished recording is appended under
    a numbered name, deleting one filters it out of the list and pushes it
    onto the stored delete bin, and the card shows the three most recent
    recordings, newest first. */
module StoryCard {
  import opened Common
  import opened Recordings

  /** "Recording " followed by the 1-based position the new recording takes
      when `count` recordings already exist. */
  function RecordingName(count: nat): (name: string)
    ensures |name| > 10 && name[..10] == "Recording "
    ensures AllDigits(name[10..]) && DigitsValue(name[10..]) == count + 1
    ensures name[10] != '0'
  {
    var n := NatToString(count + 1);
    NatToStringRoundTrip(count + 1);
    assert ("Recording " + n)[10..] == n;
    "Recording " + n
  }

  /** The recording made when the recorder stops at time `now`
      (milliseconds), `count` recordings having been made before it. */
  function NewRecording(count: nat, now: nat, duration: nat, audio: seq<bv8>,
                        transcription: string, story: string): (r: Recording)
    ensures r.id == NatToString(now) && r.name == RecordingName(count)
    ensures r.duration == duration && r.timestamp == now && r.audio == audio
    ensures r.transcription == Some(transcription) && r.story == Some(story)
    ensures r.approved.None?
  {
    Recording(NatToString(now), RecordingName(count), duration, now, audio,
              Some(transcription), Some(story), None)
  }

  function Reverse<T>(s: seq<T>): (r: seq<T>)
    ensures |r| == |s|
    ensures forall k :: 0 <= k < |s| ==> r[k] == s[|s| - 1 - k]
  {
    if s == [] then [] else Reverse(s[1..]) + [s[0]]
  }

  /** `recordings.slice(-3).reverse()`: at most three recordings, the last
      one first. */
  function Recent(s: seq<Recording>): (r: seq<Recording>)
    ensures |r| == Min(3, |s|)
    ensures forall k :: 0 <= k < |r| ==> r[k] == s[|s| - 1 - k]
  {
    var tail := if |s| <= 3 then s else s[|s| - 3..];
    Reverse(tail)
  }

  /** The card's state: the recordings, the delete bin as stored (None while
      the storage key is absent) and the recording last made. */
  class StoryRecorder {
    var recordings: seq<Recording>
    var storedBin: Option<seq<Recording>>
    var current: Option<Recording>

    constructor (saved: seq<Recording>, bin: Option<seq<Recording>>)
      ensures recordings == saved && storedBin == bin && current.None?
    {
      recordings := saved;
      storedBin := bin;
      current := None;
    }

    /** The recorder stopped: the new recording goes at the end of the list,
        named after its position, and becomes the current one. */
    method FinishRecording(now: nat, duration: nat, audio: seq<bv8>, transcription: string, story: string)
      modifies this
      ensures recordings == old(recordings) + [NewRecording(old(|recordings|), now, duration, audio, transcription, story)]
      ensures current == Some(recordings[|recordings| - 1])
      ensures recordings[|recordings| - 1].name == RecordingName(old(|recordings|))
      ensures storedBin == old(storedBin)
    {
      var recording := NewRecording(|recordings|, now, duration, audio, transcription, story);
      recordings := recordings + [recording];
      current := Some(recording);
    }

    /** Every recording with the id leaves the list, the rest keep their
        order; when the id was present its first recording is pushed onto the
        stored bin (an absent bin reads as empty). An absent id changes
        neither. */
    method DeleteRecording(id: string)
      modifies this
      ensures recordings == Without(old(recordings), id)
      ensures !HasId(old(recordings), id) ==> recordings == old(recordings) && storedBin == old(storedBin)
      ensures match FindById(old(recordings), id)
        case None => storedBin == old(storedBin)
        case Some(x) => storedBin == Some(old(storedBin).GetOr([]) + [x])
      ensures current == old(current)
    {
      var deletedRecording := FindById(recordings, id);
      recordings := Without(recordings, id);
      if deletedRecording.Some? {
        var bin := storedBin.GetOr([]);
        storedBin := Some(bin + [deletedRecording.value]);
      }
    }
  }
}
