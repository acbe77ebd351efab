/**
 * The sentinel search of the local readiness check
 * (backend/ic_env_guard/development/readiness.py).  Terminal output arrives cut
 * into messages at arbitrary places; the loop keeps only a short tail of what
 * it has seen, yet must answer as if it had kept everything.
 */
module Readiness {
  import Utf8

  /** One message of the websocket: a text frame, or anything else. */
  datatype Frame = Text(text: string) | Binary

  /** How the loop ends.  `Waiting` means it would block for another message. */
  datatype Verdict =
    | Found(at: nat)
    | LimitExceeded(at: nat)
    | UnexpectedFrame(at: nat)
    | Waiting

  ghost predicate Contains(text: string, word: string) {
    exists i :: OccursAt(text, word, i)
  }

  ghost predicate OccursAt(text: string, word: string, i: int) {
    0 <= i <= |text| - |word| && text[i..i + |word|] == word
  }

  /** Everything the first `k` messages brought, as one string. */
  ghost function Output(frames: seq<Frame>, k: nat): string
    requires k <= |frames|
  {
    if k == 0 then "" else Output(frames, k - 1) + Body(frames[k - 1])
  }

  /** The number of UTF-8 bytes the first `k` messages brought. */
  ghost function Bytes(frames: seq<Frame>, k: nat): nat
    requires k <= |frames|
  {
    if k == 0 then 0 else Bytes(frames, k - 1) + Utf8.EncodedLength(Body(frames[k - 1]))
  }

  ghost function Body(frame: Frame): string {
    match frame case Text(s) => s case Binary => ""
  }

  /** The first `k` messages are text, within the limit and free of the word. */
  ghost predicate Quiet(frames: seq<Frame>, k: nat, word: string, limit: nat)
    requires k <= |frames|
  {
    && (forall i :: 0 <= i < k ==> frames[i].Text?)
    && Bytes(frames, k) <= limit
    && !Contains(Output(frames, k), word)
  }

  /** Python's `combined[-keep:]`: the last `keep` characters, and all of them when `keep` is 0. */
  function LastCharacters(combined: string, keep: nat): (tail: string)
    ensures |tail| <= |combined| && tail == combined[|combined| - |tail|..]
    ensures |tail| == |combined| || |tail| == keep > 0
  {
    if keep == 0 || |combined| <= keep then combined else combined[|combined| - keep..]
  }

  /** What the loop remembers of `seen`: all of it, or an end long enough to hold a cut sentinel. */
  ghost predicate IsTail(tail: string, seen: string, word: string) {
    && |tail| <= |seen|
    && tail == seen[|seen| - |tail|..]
    && (|tail| == |seen| || |tail| >= |word| - 1)
  }

  /**
   * Searching the kept tail plus the new message is searching everything: an
   * occurrence that is not in `seen` must reach into `message`, and then it
   * begins inside the tail.
   */
  lemma TailSuffices(seen: string, tail: string, message: string, word: string)
    requires |word| >= 1
    requires IsTail(tail, seen, word)
    requires !Contains(seen, word)
    ensures Contains(seen + message, word) <==> Contains(tail + message, word)
  {
    var all, kept := seen + message, tail + message;
    var dropped := |seen| - |tail|;
    assert kept == all[dropped..];
    if Contains(all, word) {
      var i :| OccursAt(all, word, i);
      OccurredBefore(seen, message, word, i);
      assert kept[i - dropped..i - dropped + |word|] == all[i..i + |word|];
      assert OccursAt(kept, word, i - dropped);
    }
    if Contains(kept, word) {
      OccursLater(all[..dropped], kept, word);
      assert all[..dropped] + kept == all;
    }
  }

  lemma TailKept(seen: string, tail: string, message: string, word: string)
    requires |word| >= 1 && IsTail(tail, seen, word)
    ensures IsTail(LastCharacters(tail + message, |word| - 1), seen + message, word)
  {
    var next := LastCharacters(tail + message, |word| - 1);
    var all := seen + message;
    assert tail + message == all[|seen| - |tail|..];
    assert next == all[|all| - |next|..];
  }

  lemma OccurredBefore(text: string, after: string, word: string, i: int)
    requires OccursAt(text + after, word, i)
    ensures i + |word| <= |text| ==> OccursAt(text, word, i)
  {
    if i + |word| <= |text| {
      assert text[i..i + |word|] == (text + after)[i..i + |word|];
    }
  }

  lemma OccursLater(before: string, text: string, word: string)
    requires Contains(text, word)
    ensures Contains(before + text, word)
  {
    var i :| OccursAt(text, word, i);
    assert (before + text)[|before| + i..|before| + i + |word|] == text[i..i + |word|];
    assert OccursAt(before + text, word, |before| + i);
  }

  lemma StillOccurs(text: string, after: string, word: string)
    ensures Contains(text, word) ==> Contains(text + after, word)
  {
    if Contains(text, word) {
      var i :| OccursAt(text, word, i);
      assert (text + after)[i..i + |word|] == text[i..i + |word|];
      assert OccursAt(text + after, word, i);
    }
  }

  /** The executable `SENTINEL in combined` test. */
  method Search(text: string, word: string) returns (found: bool)
    ensures found <==> Contains(text, word)
  {
    found := false;
    var i := 0;
    while i + |word| <= |text|
      invariant 0 <= i
      invariant forall j :: 0 <= j < i ==> !OccursAt(text, word, j)
    {
      if text[i..i + |word|] == word {
        assert OccursAt(text, word, i);
        return true;
      }
      i := i + 1;
    }
  }

  /** Nothing happens before the verdict, and then what it says. */
  ghost predicate RightVerdict(frames: seq<Frame>, sentinel: string, limit: nat, v: Verdict) {
    if v.Waiting? then Quiet(frames, |frames|, sentinel, limit)
    else
      && v.at < |frames| && Quiet(frames, v.at, sentinel, limit)
      && match v
         case UnexpectedFrame(_) => frames[v.at].Binary?
         case LimitExceeded(_) => frames[v.at].Text? && Bytes(frames, v.at + 1) > limit
         case Found(_) =>
           && frames[v.at].Text?
           && Bytes(frames, v.at + 1) <= limit
           && Contains(Output(frames, v.at + 1), sentinel)
  }

  /**
   * The receive loop.  It answers `Found(k)` at exactly the first message after
   * which the concatenation of everything received contains the sentinel, unless
   * a frame that is not text or the byte limit comes first.
   */
  method AwaitSentinel(sentinel: string, limit: nat, frames: seq<Frame>) returns (v: Verdict)
    requires |sentinel| >= 1
    ensures RightVerdict(frames, sentinel, limit, v)
  {
    var receivedBytes := 0;
    var tail := "";
    ghost var seen := "";
    var k := 0;
    while k < |frames|
      invariant 0 <= k <= |frames|
      invariant Quiet(frames, k, sentinel, limit)
      invariant receivedBytes == Bytes(frames, k) && seen == Output(frames, k)
      invariant IsTail(tail, seen, sentinel)
    {
      if frames[k].Binary? {
        return UnexpectedFrame(k);
      }
      var message := frames[k].text;
      receivedBytes := receivedBytes + Utf8.EncodedLength(message);
      if receivedBytes > limit {
        return LimitExceeded(k);
      }
      var combined := tail + message;
      TailSuffices(seen, tail, message, sentinel);
      var hit := Search(combined, sentinel);
      if hit {
        return Found(k);
      }
      TailKept(seen, tail, message, sentinel);
      tail := LastCharacters(combined, |sentinel| - 1);
      seen := seen + message;
      k := k + 1;
    }
    v := Waiting;
  }

  /** Quietness can only be lost. */
  lemma {:induction false} QuietIsPrefixClosed(frames: seq<Frame>, j: nat, k: nat, word: string, limit: nat)
    requires j <= k <= |frames| && Quiet(frames, k, word, limit)
    ensures Quiet(frames, j, word, limit)
    decreases k - j
  {
    if j < k {
      StillOccurs(Output(frames, k - 1), frames[k - 1].text, word);
      QuietIsPrefixClosed(frames, j, k - 1, word, limit);
    }
  }

  /** However the output is cut into messages, only one verdict on them is right. */
  lemma VerdictIsUnique(frames: seq<Frame>, sentinel: string, limit: nat, u: Verdict, v: Verdict)
    requires RightVerdict(frames, sentinel, limit, u) && RightVerdict(frames, sentinel, limit, v)
    ensures u == v
  {
    var i, j := if u.Waiting? then |frames| else u.at, if v.Waiting? then |frames| else v.at;
    if i < j {
      QuietIsPrefixClosed(frames, i + 1, j, sentinel, limit);
    } else if j < i {
      QuietIsPrefixClosed(frames, j + 1, i, sentinel, limit);
    }
  }
}
