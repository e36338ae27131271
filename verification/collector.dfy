/** Reading a body into memory under a size limit and a deadline. */
module Collector {
  import opened Wrappers
  import opened Http

  datatype Collected = Whole(bytes: Bytes) | OverLimit | Failed(error: string) | TimedOut

  /** Frame i is the first at which collecting stops. */
  ghost predicate StopsAt(frames: seq<Frame>, limit: nat, i: nat) {
    && i < |frames|
    && (frames[i].Broken? || frames[i].Stalled? || |DataOf(frames[..i + 1])| > limit)
    && Intact(frames[..i])
    && |DataOf(frames[..i])| <= limit
  }

  lemma DataOfNext(frames: seq<Frame>, i: nat)
    requires i < |frames|
    ensures DataOf(frames[..i + 1]) == DataOf(frames[..i]) + (if frames[i].Data? then frames[i].bytes else [])
  {
    assert frames[..i + 1] == frames[..i] + [frames[i]];
    DataOfConcat(frames[..i], [frames[i]]);
    assert [frames[i]][1..] == [];
  }

  lemma DataOfGrows(frames: seq<Frame>, i: nat)
    requires i <= |frames|
    ensures |DataOf(frames[..i])| <= |DataOf(frames)|
  {
    assert frames == frames[..i] + frames[i..];
    DataOfConcat(frames[..i], frames[i..]);
  }

  /** Collecting stops at one place only, so what `Collect` answers is determined. */
  lemma StopIsUnique(frames: seq<Frame>, limit: nat, i: nat, j: nat)
    requires StopsAt(frames, limit, i) && StopsAt(frames, limit, j)
    ensures i == j
  {
    if i < j { StopBlocks(frames, limit, i, j); }
    if j < i { StopBlocks(frames, limit, j, i); }
  }

  lemma StopBlocks(frames: seq<Frame>, limit: nat, i: nat, j: nat)
    requires StopsAt(frames, limit, i) && i < j <= |frames|
    ensures !Intact(frames[..j]) || |DataOf(frames[..j])| > limit
  {
    assert frames[..j][i] == frames[i];
    assert frames[..j][..i + 1] == frames[..i + 1];
    DataOfGrows(frames[..j], i + 1);
  }

  lemma {:induction false} StopExists(frames: seq<Frame>, limit: nat, n: nat)
    requires n <= |frames| && (!Intact(frames[..n]) || |DataOf(frames[..n])| > limit)
    ensures exists i: nat :: StopsAt(frames, limit, i)
  {
    if n > 0 {
      if Intact(frames[..n - 1]) && |DataOf(frames[..n - 1])| <= limit {
        assert StopsAt(frames, limit, n - 1) by {
          assert frames[..n] == frames[..n - 1] + [frames[n - 1]];
        }
      } else {
        StopExists(frames, limit, n - 1);
      }
    }
  }

  /**
   What collecting a body under a limit must answer: the concatenated data of an intact stream
   that fits, otherwise the reason of the first frame that cannot be taken.
   */
  ghost function CollectedOf(frames: seq<Frame>, limit: nat): Collected {
    if Intact(frames) && |DataOf(frames)| <= limit then Whole(DataOf(frames))
    else
      assert frames[..|frames|] == frames;
      StopExists(frames, limit, |frames|);
      var i: nat :| StopsAt(frames, limit, i);
      match frames[i]
      case Broken(error) => Failed(error)
      case Stalled => TimedOut
      case _ => OverLimit
  }

  lemma CollectedAtStop(frames: seq<Frame>, limit: nat, i: nat)
    requires StopsAt(frames, limit, i)
    ensures CollectedOf(frames, limit) == match frames[i]
                                          case Broken(error) => Failed(error)
                                          case Stalled => TimedOut
                                          case _ => OverLimit
  {
    assert frames[..|frames|] == frames;
    StopBlocks(frames, limit, i, |frames|);
    forall j: nat | StopsAt(frames, limit, j) ensures j == i {
      StopIsUnique(frames, limit, i, j);
    }
  }

  /** Reads the body through the limiter; never more than `limit` bytes are held. */
  method Collect(frames: seq<Frame>, limit: nat) returns (r: Collected)
    ensures r == CollectedOf(frames, limit)
    ensures r.Whole? ==> |r.bytes| <= limit
  {
    var held: Bytes := [];
    var remaining := limit;
    for i := 0 to |frames|
      invariant Intact(frames[..i]) && held == DataOf(frames[..i])
      invariant |held| + remaining == limit
    {
      DataOfNext(frames, i);
      assert !frames[i].Broken? && !frames[i].Stalled? ==> Intact(frames[..i + 1]);
      match frames[i] {
        case Data(bytes) =>
          if |bytes| > remaining {
            CollectedAtStop(frames, limit, i);
            return OverLimit;
          }
          remaining := remaining - |bytes|;
          held := held + bytes;
        case Trailers(_) =>
        case Broken(error) =>
          CollectedAtStop(frames, limit, i);
          return Failed(error);
        case Stalled =>
          CollectedAtStop(frames, limit, i);
          return TimedOut;
      }
    }
    assert frames[..|frames|] == frames;
    r := Whole(held);
  }

  /** A body whose announced size is its real size, and within the limit, never trips the limiter. */
  lemma TruthfulNeverOverLimit(body: Body, limit: nat)
    requires body.exact == Some(|DataOf(body.frames)|) && body.exact.value <= limit
    ensures !CollectedOf(body.frames, limit).OverLimit?
  {
    if !Intact(body.frames) {
      assert body.frames[..|body.frames|] == body.frames;
      StopExists(body.frames, limit, |body.frames|);
      var i: nat :| StopsAt(body.frames, limit, i);
      DataOfGrows(body.frames, i + 1);
      CollectedAtStop(body.frames, limit, i);
    }
  }

  /** Over the limit means: some prefix without error or stall already holds too many bytes. */
  lemma OverLimitIff(frames: seq<Frame>, limit: nat)
    ensures CollectedOf(frames, limit).OverLimit? <==>
            exists n: nat :: n <= |frames| && Intact(frames[..n]) && |DataOf(frames[..n])| > limit
  {
    if CollectedOf(frames, limit).OverLimit? {
      assert frames[..|frames|] == frames;
      StopExists(frames, limit, |frames|);
      var i: nat :| StopsAt(frames, limit, i);
      CollectedAtStop(frames, limit, i);
      assert frames[..i + 1] == frames[..i] + [frames[i]];
      assert Intact(frames[..i + 1]) && |DataOf(frames[..i + 1])| > limit;
    }
    if n: nat :| n <= |frames| && Intact(frames[..n]) && |DataOf(frames[..n])| > limit {
      StopExists(frames, limit, n);
      var i: nat :| StopsAt(frames, limit, i);
      CollectedAtStop(frames, limit, i);
      if n <= i {
        assert frames[..i][..n] == frames[..n];
        DataOfGrows(frames[..i], n);
      } else {
        assert frames[..n][i] == frames[i];
      }
    }
  }
}
