/** The pure helpers of the creator studio (components/CreatorStudio.tsx):
    the error-message classification, the cleaning of a script before it is
    read aloud, the episode stepper and the name of a single-package
    download. */
module StudioHelpers {
  import opened Wrappers
  import opened Text
  import opened Archive

  // ---------------------------------------------------------------------
  // Error messages

  const QuotaMessage: string :=
    "⚠️ Quota API atteint (Erreur 429). Google limite le nombre de générations par minute. Veuillez patienter 1 à 2 minutes avant de réessayer."

  /** The API refused for lack of quota: the message mentions `429` or
      `RESOURCE_EXHAUSTED`. */
  predicate IsQuotaError(msg: string) {
    IsInfix("429", msg) || IsInfix("RESOURCE_EXHAUSTED", msg)
  }

  /** The text `handleApiError` shows for an error whose message (or JSON
      form) is `msg`, under the caller's default message. */
  function ApiErrorMessage(msg: string, defaultMsg: string): (r: string)
    ensures IsQuotaError(msg) ==> r == QuotaMessage
    ensures !IsQuotaError(msg) ==>
              && |r| == |defaultMsg| + 5 + (if |msg| < 100 then |msg| else 100)
              && r[..|defaultMsg| + 2] == defaultMsg + ": "
              && r[|r| - 3..] == "..."
              && r[|defaultMsg| + 2..|r| - 3] <= msg
  {
    if IsQuotaError(msg) then QuotaMessage
    else
      var cut := Take(msg, 100);
      var r := defaultMsg + ": " + cut + "...";
      assert r[|defaultMsg| + 2..|r| - 3] == cut;
      r
  }

  /** A message that mentions `429` anywhere is a quota error, whatever the
      default message. */
  lemma QuotaWhenStatusMentioned(pre: string, post: string, defaultMsg: string)
    ensures ApiErrorMessage(pre + "429" + post, defaultMsg) == QuotaMessage
  {
    InfixOfConcat("429", pre, pre + "429" + post, post);
  }

  /** A non-quota message keeps its first 100 characters whole: a message of
      at most 100 characters is shown in full. */
  lemma ShortMessageShownWhole(msg: string, defaultMsg: string)
    requires !IsQuotaError(msg) && |msg| <= 100
    ensures ApiErrorMessage(msg, defaultMsg) == defaultMsg + ": " + msg + "..."
  {
  }

  // ---------------------------------------------------------------------
  // Script cleaning

  /** The characters a regular-expression `.` does not match. */
  predicate IsLineTerminator(c: char) {
    c == '\n' || c == '\r' || c == '\U{2028}' || c == '\U{2029}'
  }

  /** Where `.*?` followed by `close` stops on `t`: the first `close`,
      provided no line terminator comes before it. */
  function CloseIndex(t: string, close: char): (r: Option<nat>)
    ensures r.Some? ==> r.value < |t| && t[r.value] == close
    ensures r.Some? ==> forall i :: 0 <= i < r.value ==> t[i] != close && !IsLineTerminator(t[i])
    ensures r.None? ==> forall i :: 0 <= i < |t| && t[i] == close ==>
                          exists j :: 0 <= j < i && IsLineTerminator(t[j])
  {
    if |t| == 0 then None
    else if t[0] == close then Some(0)
    else if IsLineTerminator(t[0]) then None
    else
      match CloseIndex(t[1..], close)
      case None =>
        assert forall i :: 1 <= i < |t| ==> t[i] == t[1..][i - 1];
        None
      case Some(k) => Some(k + 1)
  }

  /** `s.replace(/\[.*?\]/g, '')` for the bracket pair `open`/`close`: left to
      right, each `open` that has a `close` later on its line is removed
      together with everything up to that first `close`; the scan goes on
      after it. An `open` with no `close` on its line stays. */
  function StripPairs(s: string, open: char, close: char): (r: string)
    ensures |r| <= |s|
    decreases |s|
  {
    if |s| == 0 then ""
    else if s[0] == open && CloseIndex(s[1..], close).Some? then
      StripPairs(s[CloseIndex(s[1..], close).value + 2..], open, close)
    else [s[0]] + StripPairs(s[1..], open, close)
  }

  /** No `open` in `s` has a `close` after it on the same line. */
  predicate PairFree(s: string, open: char, close: char)
    decreases |s|
  {
    |s| == 0 || ((s[0] == open ==> CloseIndex(s[1..], close).None?) && PairFree(s[1..], open, close))
  }

  /** The text `handleGenerateAudio` sends to speech synthesis: bracketed
      cues removed first, then parenthesised ones. */
  function CleanScript(script: string): (r: string)
    ensures |r| <= |script|
    ensures '[' !in script && '(' !in script ==> r == script
  {
    NoOpenUnchanged(script, '[', ']');
    NoOpenUnchanged(StripPairs(script, '[', ']'), '(', ')');
    StripPairs(StripPairs(script, '[', ']'), '(', ')')
  }

  /** A text without an opening bracket is left as it is. */
  lemma {:induction false} NoOpenUnchanged(s: string, open: char, close: char)
    ensures open !in s ==> StripPairs(s, open, close) == s
    decreases |s|
  {
    if |s| > 0 && open !in s {
      NoOpenUnchanged(s[1..], open, close);
    }
  }

  predicate ValidPair(open: char, close: char) {
    open != close && !IsLineTerminator(open) && !IsLineTerminator(close)
  }

  /** A terminator-free prefix can be dropped without changing whether a
      `close` precedes the next line terminator. */
  lemma {:induction false} CloseIndexNoneAfterPrefix(t: string, n: nat, close: char)
    requires n <= |t|
    requires forall i :: 0 <= i < n ==> !IsLineTerminator(t[i])
    requires CloseIndex(t, close).None?
    ensures CloseIndex(t[n..], close).None?
    decreases n
  {
    if n > 0 {
      assert t[0] != close;
      assert t[1..][n - 1..] == t[n..];
      CloseIndexNoneAfterPrefix(t[1..], n - 1, close);
    }
  }

  /** Stripping one kind of pair never brings a `close` of any kind onto the
      line before the first line terminator: removed runs hold no line
      terminator, so what is left up to it comes from the original line. */
  lemma {:induction false} StripKeepsNoClose(t: string, open: char, close: char, c: char)
    requires ValidPair(open, close) && !IsLineTerminator(c)
    requires CloseIndex(t, c).None?
    ensures CloseIndex(StripPairs(t, open, close), c).None?
    decreases |t|
  {
    if |t| > 0 {
      if t[0] == open && CloseIndex(t[1..], close).Some? {
        var j := CloseIndex(t[1..], close).value;
        assert forall i :: 0 <= i < j + 2 ==> !IsLineTerminator(t[i]) by {
          forall i | 0 <= i < j + 2 ensures !IsLineTerminator(t[i]) {
            if 0 < i < j + 1 {
              assert t[i] == t[1..][i - 1];
            } else if i == j + 1 {
              assert t[i] == t[1..][j];
            }
          }
        }
        CloseIndexNoneAfterPrefix(t, j + 2, c);
        StripKeepsNoClose(t[j + 2..], open, close, c);
      } else if IsLineTerminator(t[0]) {
        assert StripPairs(t, open, close) == [t[0]] + StripPairs(t[1..], open, close);
      } else {
        StripKeepsNoClose(t[1..], open, close, c);
        var r := StripPairs(t[1..], open, close);
        assert StripPairs(t, open, close) == [t[0]] + r;
        assert ([t[0]] + r)[1..] == r;
      }
    }
  }

  /** A suffix of a pair-free string is pair-free. */
  lemma {:induction false} PairFreeSuffix(s: string, n: nat, open: char, close: char)
    requires n <= |s| && PairFree(s, open, close)
    ensures PairFree(s[n..], open, close)
    decreases n
  {
    if n > 0 {
      assert s[1..][n - 1..] == s[n..];
      PairFreeSuffix(s[1..], n - 1, open, close);
    }
  }

  /** Stripping a pair leaves no such pair behind. */
  lemma {:induction false} StripPairsIsPairFree(s: string, open: char, close: char)
    requires ValidPair(open, close)
    ensures PairFree(StripPairs(s, open, close), open, close)
    decreases |s|
  {
    if |s| > 0 {
      if s[0] == open && CloseIndex(s[1..], close).Some? {
        StripPairsIsPairFree(s[CloseIndex(s[1..], close).value + 2..], open, close);
      } else {
        var r := StripPairs(s[1..], open, close);
        StripPairsIsPairFree(s[1..], open, close);
        assert ([s[0]] + r)[1..] == r;
        if s[0] == open {
          StripKeepsNoClose(s[1..], open, close, close);
        }
      }
    }
  }

  /** Stripping one kind of pair keeps another kind of pair absent. */
  lemma {:induction false} StripPreservesPairFree(s: string, open: char, close: char, o: char, c: char)
    requires ValidPair(open, close) && ValidPair(o, c)
    requires PairFree(s, o, c)
    ensures PairFree(StripPairs(s, open, close), o, c)
    decreases |s|
  {
    if |s| > 0 {
      if s[0] == open && CloseIndex(s[1..], close).Some? {
        var n := CloseIndex(s[1..], close).value + 2;
        PairFreeSuffix(s, n, o, c);
        StripPreservesPairFree(s[n..], open, close, o, c);
      } else {
        var r := StripPairs(s[1..], open, close);
        StripPreservesPairFree(s[1..], open, close, o, c);
        assert ([s[0]] + r)[1..] == r;
        if s[0] == o {
          StripKeepsNoClose(s[1..], open, close, c);
        }
      }
    }
  }

  /** Stripping a pair-free string changes nothing. */
  lemma {:induction false} StripPairFreeIsIdentity(s: string, open: char, close: char)
    requires PairFree(s, open, close)
    ensures StripPairs(s, open, close) == s
    decreases |s|
  {
    if |s| > 0 {
      StripPairFreeIsIdentity(s[1..], open, close);
    }
  }

  /** A cleaned script holds no `[...]` and no `(...)` on one line, and
      cleaning it again changes nothing. */
  lemma CleanScriptIsClean(script: string)
    ensures PairFree(CleanScript(script), '[', ']')
    ensures PairFree(CleanScript(script), '(', ')')
    ensures CleanScript(CleanScript(script)) == CleanScript(script)
  {
    var once := StripPairs(script, '[', ']');
    StripPairsIsPairFree(script, '[', ']');
    StripPreservesPairFree(once, '(', ')', '[', ']');
    StripPairsIsPairFree(once, '(', ')');
    var r := CleanScript(script);
    StripPairFreeIsIdentity(r, '[', ']');
    StripPairFreeIsIdentity(r, '(', ')');
  }

  /** Removing a cue drops exactly the cue: `[cue]` with no line break or
      `]` inside, between cue-free text, disappears. */
  lemma CueRemoved(cue: string, rest: string)
    requires forall i :: 0 <= i < |cue| ==> cue[i] != ']' && !IsLineTerminator(cue[i])
    ensures StripPairs("[" + cue + "]" + rest, '[', ']') == StripPairs(rest, '[', ']')
  {
    var s := "[" + cue + "]" + rest;
    assert s[1..] == cue + "]" + rest;
    assert forall i :: 0 <= i < |cue| ==> s[1..][i] == cue[i];
    assert s[1..][|cue|] == ']';
    assert CloseIndex(s[1..], ']') == Some(|cue|);
    assert s[|cue| + 2..] == rest;
  }

  // ---------------------------------------------------------------------
  // Episode stepper

  /** The `-` button: one episode back, never below 1. */
  function EpisodeBack(n: int): (r: int)
    ensures r >= 1
    ensures r <= n || n < 1
    ensures n > 1 ==> r == n - 1
  {
    if n - 1 > 1 then n - 1 else 1
  }

  /** The `+` button, and the step after a series episode is queued. */
  function EpisodeForward(n: int): (r: int)
    ensures r > n
    ensures r == n + 1
  {
    n + 1
  }

  /** Back undoes forward on every valid episode number. */
  lemma BackUndoesForward(n: int)
    requires n >= 1
    ensures EpisodeBack(EpisodeForward(n)) == n
  {
  }

  // ---------------------------------------------------------------------
  // Single-package file name

  /** `title.replace(/[^a-z0-9]/gi, '_').toLowerCase() + '_package.zip'`: the
      whole title, unlike a folder name, which is cut to 30 characters. */
  function PackageFileName(title: string): (r: string)
    ensures |r| == |title| + 12
    ensures r[|title|..] == "_package.zip"
    ensures forall i :: 0 <= i < |title| ==> IsSlugChar(r[i]) && (r[i] == '_' <==> !IsAsciiAlnum(title[i]))
    ensures forall i :: 0 <= i < |title| && IsAsciiAlnum(title[i]) ==> r[i] == LowerAscii(title[i])
    ensures |title| <= 30 ==> r[..|title|] == TitleSlug(title)
  {
    seq(|title|, i requires 0 <= i < |title| => SlugChar(title[i])) + "_package.zip"
  }
}
