/**
 * The plain-text resume generator, given what its regular expressions captured from the
 * resume page: the clean-up of each piece and the layout of the assembled text.
 */
module ResumeText {
  import opened Wrappers
  import opened JsArray
  import opened JsSort

  // ---------------------------------------------------------------- whitespace

  /** The characters JavaScript's `\s` and `String.prototype.trim` treat as white space. */
  predicate IsSpace(c: char)
  {
    c == '\t' || c == '\n' || c == '\U{B}' || c == '\U{C}' || c == '\r' || c == ' '
    || c == '\U{A0}' || c == '\U{1680}' || ('\U{2000}' <= c <= '\U{200A}')
    || c == '\U{2028}' || c == '\U{2029}' || c == '\U{202F}' || c == '\U{205F}'
    || c == '\U{3000}' || c == '\U{FEFF}'
  }

  /** No white space at either end. */
  predicate Trimmed(s: string)
  {
    |s| > 0 ==> !IsSpace(s[0]) && !IsSpace(s[|s| - 1])
  }

  /** The characters of `s` that are not white space, in order. */
  function Visible(s: string): string
    decreases |s|
  {
    if |s| == 0 then "" else (if IsSpace(s[0]) then "" else [s[0]]) + Visible(s[1..])
  }

  lemma {:induction false} VisibleAppend(a: string, b: string)
    ensures Visible(a + b) == Visible(a) + Visible(b)
    decreases |a|
  {
    if |a| > 0 {
      assert (a + b)[1..] == a[1..] + b;
      VisibleAppend(a[1..], b);
    } else {
      assert a + b == b;
    }
  }

  /** `s` without its leading white space. */
  function TrimStart(s: string): (r: string)
    ensures |r| <= |s| && r == s[|s| - |r|..]
    ensures |r| > 0 ==> !IsSpace(r[0])
    decreases |s|
  {
    if |s| > 0 && IsSpace(s[0]) then TrimStart(s[1..]) else s
  }

  lemma {:induction false} TrimStartVisible(s: string)
    ensures Visible(TrimStart(s)) == Visible(s)
    decreases |s|
  {
    if |s| > 0 && IsSpace(s[0]) {
      TrimStartVisible(s[1..]);
    }
  }

  /** `s` without its trailing white space. */
  function TrimEnd(s: string): (r: string)
    ensures |r| <= |s| && r == s[..|r|]
    ensures |r| > 0 ==> !IsSpace(r[|r| - 1])
    decreases |s|
  {
    if |s| > 0 && IsSpace(s[|s| - 1]) then TrimEnd(s[..|s| - 1]) else s
  }

  lemma {:induction false} TrimEndVisible(s: string)
    ensures Visible(TrimEnd(s)) == Visible(s)
    decreases |s|
  {
    if |s| > 0 && IsSpace(s[|s| - 1]) {
      TrimEndVisible(s[..|s| - 1]);
      VisibleAppend(s[..|s| - 1], [s[|s| - 1]]);
      assert s == s[..|s| - 1] + [s[|s| - 1]];
    }
  }

  /** `s.trim()`: no white space at either end. */
  function Trim(s: string): (r: string)
    ensures Trimmed(r)
  {
    TrimStart(TrimEnd(s))
  }

  /** Trimming removes white space only: every visible character is kept, in order. */
  lemma TrimKeepsVisible(s: string)
    ensures Visible(Trim(s)) == Visible(s)
  {
    TrimEndVisible(s);
    TrimStartVisible(TrimEnd(s));
  }

  /** What `trim` returns is a contiguous piece of its input. */
  lemma TrimIsInfix(s: string) returns (i: nat, j: nat)
    ensures i <= j <= |s| && Trim(s) == s[i..j]
  {
    var e := TrimEnd(s);
    var r := TrimStart(e);
    i, j := |e| - |r|, |e|;
    assert e == s[..j];
    assert r == e[i..];
    assert e[i..] == s[i..j];
  }

  /** The maximal runs of visible characters of `s`, in order, after the run `cur` already read. */
  function WordsFrom(cur: string, s: string): seq<string>
    decreases |s|
  {
    if |s| == 0 then (if cur == "" then [] else [cur])
    else if IsSpace(s[0]) then (if cur == "" then [] else [cur]) + WordsFrom("", s[1..])
    else WordsFrom(cur + [s[0]], s[1..])
  }

  /** The words of `s`: the pieces of `s.split(/\s+/)` that are not empty. */
  function Words(s: string): seq<string>
  {
    WordsFrom("", s)
  }

  /** Leading white space separates no words. */
  lemma {:induction false} TrimStartKeepsWords(s: string)
    ensures Words(TrimStart(s)) == Words(s)
    decreases |s|
  {
    if |s| > 0 && IsSpace(s[0]) {
      TrimStartKeepsWords(s[1..]);
    }
  }

  /** A white-space character at the end only ends the run being read. */
  lemma {:induction false} SpaceAtEndKeepsWords(cur: string, y: string, c: char)
    requires IsSpace(c)
    ensures WordsFrom(cur, y + [c]) == WordsFrom(cur, y)
    decreases |y|
  {
    if |y| == 0 {
      assert y + [c] == [c];
      assert [c][1..] == "";
    } else {
      assert (y + [c])[0] == y[0];
      assert (y + [c])[1..] == y[1..] + [c];
      if IsSpace(y[0]) {
        SpaceAtEndKeepsWords("", y[1..], c);
      } else {
        SpaceAtEndKeepsWords(cur + [y[0]], y[1..], c);
      }
    }
  }

  /** Trailing white space separates no words. */
  lemma {:induction false} TrimEndKeepsWords(s: string)
    ensures Words(TrimEnd(s)) == Words(s)
    decreases |s|
  {
    if |s| > 0 && IsSpace(s[|s| - 1]) {
      var p := s[..|s| - 1];
      TrimEndKeepsWords(p);
      SpaceAtEndKeepsWords("", p, s[|s| - 1]);
      assert s == p + [s[|s| - 1]];
    }
  }

  /** Trimming keeps every word, in order. */
  lemma TrimKeepsWords(s: string)
    ensures Words(Trim(s)) == Words(s)
  {
    TrimEndKeepsWords(s);
    TrimStartKeepsWords(TrimEnd(s));
  }

  /** `TrimStart` leaves nothing only of white space: the last character then is white space. */
  lemma {:induction false} TrimStartEmpty(s: string)
    requires |s| > 0 && TrimStart(s) == ""
    ensures IsSpace(s[|s| - 1])
    decreases |s|
  {
    if |s| > 1 {
      TrimStartEmpty(s[1..]);
    }
  }

  /** No two neighbouring white-space characters, and every one of them a plain space. */
  predicate Collapsed(s: string)
  {
    (forall i :: 0 <= i < |s| && IsSpace(s[i]) ==> s[i] == ' ')
    && (forall i :: 0 <= i < |s| - 1 ==> !(IsSpace(s[i]) && IsSpace(s[i + 1])))
  }

  /** `s.replace(/\s+/g, ' ')`: every maximal run of white space becomes one space. */
  function CollapseSpaces(s: string): (r: string)
    ensures Collapsed(r)
    ensures Visible(r) == Visible(s)
    ensures |s| > 0 && !IsSpace(s[0]) ==> |r| > 0 && r[0] == s[0]
    ensures |s| > 0 && IsSpace(s[0]) ==> |r| > 0 && r[0] == ' '
    ensures |s| == 0 <==> |r| == 0
    decreases |s|
  {
    if |s| == 0 then ""
    else if IsSpace(s[0]) then
      var rest := TrimStart(s[1..]);
      var tail := CollapseSpaces(rest);
      TrimStartVisible(s[1..]);
      VisibleAppend(" ", tail);
      assert Visible(s) == Visible(s[1..]);
      ConsCollapsed(' ', tail);
      " " + tail
    else
      var tail := CollapseSpaces(s[1..]);
      VisibleAppend([s[0]], tail);
      ConsCollapsed(s[0], tail);
      [s[0]] + tail
  }

  /**
   * Collapsing keeps the words, in order, with their separators: the result splits into the
   * same words as the input, whatever run of text came before.
   */
  lemma {:induction false} CollapseKeepsWords(cur: string, s: string)
    ensures WordsFrom(cur, CollapseSpaces(s)) == WordsFrom(cur, s)
    decreases |s|
  {
    if |s| > 0 {
      if IsSpace(s[0]) {
        var rest := TrimStart(s[1..]);
        var t := CollapseSpaces(rest);
        CollapseKeepsWords("", rest);
        TrimStartKeepsWords(s[1..]);
        assert (" " + t)[1..] == t;
      } else {
        var t := CollapseSpaces(s[1..]);
        CollapseKeepsWords(cur + [s[0]], s[1..]);
        assert ([s[0]] + t)[1..] == t;
      }
    }
  }

  /** The result ends with a space exactly where the input ends with white space, and otherwise with the input's last character. */
  lemma {:induction false} CollapseKeepsEnd(s: string)
    requires |s| > 0
    ensures IsSpace(s[|s| - 1]) ==> Last(CollapseSpaces(s)) == ' '
    ensures !IsSpace(s[|s| - 1]) ==> Last(CollapseSpaces(s)) == s[|s| - 1]
    decreases |s|, 1
  {
    if IsSpace(s[0]) {
      CollapseEndAfterSpace(s);
    } else if |s| > 1 {
      var t := CollapseSpaces(s[1..]);
      assert CollapseSpaces(s) == [s[0]] + t;
      CollapseKeepsEnd(s[1..]);
      assert s[|s| - 1] == s[1..][|s| - 2];
    }
  }

  lemma {:induction false} CollapseEndAfterSpace(s: string)
    requires |s| > 0 && IsSpace(s[0])
    ensures IsSpace(s[|s| - 1]) ==> Last(CollapseSpaces(s)) == ' '
    ensures !IsSpace(s[|s| - 1]) ==> Last(CollapseSpaces(s)) == s[|s| - 1]
    decreases |s|, 0
  {
    var x := s[1..];
    var rest := TrimStart(x);
    var t := CollapseSpaces(rest);
    var r := " " + t;
    assert CollapseSpaces(s) == r;
    if |rest| == 0 {
      assert Last(r) == ' ';
      if |x| > 0 {
        TrimStartEmpty(x);
        assert s[|s| - 1] == x[|x| - 1];
      }
    } else {
      CollapseKeepsEnd(rest);
      assert Last(r) == Last(t);
      LastOfSuffix(x, rest);
      assert Last(x) == s[|s| - 1];
    }
  }

  lemma LastOfSuffix(x: string, y: string)
    requires 0 < |y| <= |x| && y == x[|x| - |y|..]
    ensures Last(y) == Last(x)
  {
  }

  /** The last character of a nonempty string. */
  function Last(s: string): char
    requires |s| > 0
  {
    s[|s| - 1]
  }

  /** A character put before a collapsed text keeps it collapsed when it is visible, or a plain space before a visible character. */
  lemma ConsCollapsed(c: char, tail: string)
    requires Collapsed(tail)
    requires IsSpace(c) ==> c == ' ' && (|tail| > 0 ==> !IsSpace(tail[0]))
    ensures Collapsed([c] + tail)
  {
    var r := [c] + tail;
    forall i | 0 <= i < |r| && IsSpace(r[i]) ensures r[i] == ' ' {
      if i > 0 {
        assert r[i] == tail[i - 1];
      }
    }
    forall i | 0 <= i < |r| - 1 ensures !(IsSpace(r[i]) && IsSpace(r[i + 1])) {
      if i > 0 {
        assert r[i] == tail[i - 1] && r[i + 1] == tail[i];
      } else {
        assert r[1] == tail[0];
      }
    }
  }

  /** Trimming keeps a collapsed string collapsed. */
  lemma TrimKeepsCollapsed(s: string)
    requires Collapsed(s)
    ensures Collapsed(Trim(s))
  {
    var i, j := TrimIsInfix(s);
    InfixCollapsed(s, i, j);
  }

  lemma InfixCollapsed(s: string, i: nat, j: nat)
    requires Collapsed(s) && i <= j <= |s|
    ensures Collapsed(s[i..j])
  {
    var r := s[i..j];
    forall k | 0 <= k < |r| && IsSpace(r[k]) ensures r[k] == ' ' {
      assert r[k] == s[i + k];
    }
    forall k | 0 <= k < |r| - 1 ensures !(IsSpace(r[k]) && IsSpace(r[k + 1])) {
      assert r[k] == s[i + k] && r[k + 1] == s[i + k + 1];
    }
  }

  /**
   * The professional summary: white-space runs collapsed to one space, then trimmed;
   * `''` when the summary pattern did not match.
   */
  function Summary(capture: Option<string>): (r: string)
    ensures capture.None? ==> r == ""
    ensures Trimmed(r) && Collapsed(r)
    ensures capture.Some? ==> Visible(r) == Visible(capture.value)
    ensures capture.Some? ==> Words(r) == Words(capture.value)
  {
    if capture.None? then ""
    else
      var c := CollapseSpaces(capture.value);
      TrimKeepsCollapsed(c);
      TrimKeepsVisible(c);
      CollapseKeepsWords("", capture.value);
      TrimKeepsWords(c);
      Trim(c)
  }

  // ------------------------------------------------------------ job bullets

  /** Replace every non-overlapping `a b` pair, scanning left to right, by `c` (`replace(/ab/g, c)`). */
  function ReplacePair(s: string, a: char, b: char, c: char): (r: string)
    decreases |s|
  {
    if |s| < 2 then s
    else if s[0] == a && s[1] == b then [c] + ReplacePair(s[2..], a, b, c)
    else [s[0]] + ReplacePair(s[1..], a, b, c)
  }

  /** `.replace(/\\"/g, '"').replace(/\\'/g, "'")`: drop the backslash of escaped double, then single, quotes. */
  function Unescape(s: string): string
  {
    ReplacePair(ReplacePair(s, '\\', '"', '"'), '\\', '\'', '\'')
  }

  /** The source form of a quoted piece: a backslash before every quote. */
  function Escape(t: string): string
    decreases |t|
  {
    if |t| == 0 then ""
    else (if t[0] == '"' || t[0] == '\'' then ['\\', t[0]] else [t[0]]) + Escape(t[1..])
  }

  /** Only the single quotes escaped: what is left after the first pass. */
  function EscapeSingle(t: string): string
    decreases |t|
  {
    if |t| == 0 then ""
    else (if t[0] == '\'' then ['\\', t[0]] else [t[0]]) + EscapeSingle(t[1..])
  }

  lemma {:induction false} FirstPassUndoesDoubleQuotes(t: string)
    requires '\\' !in t
    ensures ReplacePair(Escape(t), '\\', '"', '"') == EscapeSingle(t)
    decreases |t|
  {
    if |t| > 0 {
      var x, rest := t[0], t[1..];
      assert '\\' !in rest && x != '\\' by {
        assert t == [x] + rest;
      }
      FirstPassUndoesDoubleQuotes(rest);
      var er := Escape(rest);
      if x == '"' {
        var e := ['\\', x] + er;
        assert Escape(t) == e;
        assert e[2..] == er;
        assert ReplacePair(e, '\\', '"', '"') == [x] + ReplacePair(er, '\\', '"', '"');
        assert EscapeSingle(t) == [x] + EscapeSingle(rest);
      } else if x == '\'' {
        var e := ['\\', x] + er;
        assert Escape(t) == e;
        assert e[1..] == [x] + er;
        PassLeavesUnmarked(er, x);
        assert ReplacePair(e, '\\', '"', '"') == ['\\'] + ReplacePair([x] + er, '\\', '"', '"');
        assert EscapeSingle(t) == ['\\', x] + EscapeSingle(rest);
      } else {
        assert Escape(t) == [x] + er;
        PassLeavesUnmarked(er, x);
        assert EscapeSingle(t) == [x] + EscapeSingle(rest);
      }
    }
  }

  /** A pass after a character other than the backslash starts over on the rest. */
  lemma PassLeavesUnmarked(rest: string, x: char)
    requires x != '\\'
    ensures ReplacePair([x] + rest, '\\', '"', '"') == [x] + ReplacePair(rest, '\\', '"', '"')
  {
    if |rest| == 0 {
    } else {
      assert ([x] + rest)[1..] == rest;
    }
  }

  lemma {:induction false} SecondPassUndoesSingleQuotes(t: string)
    requires '\\' !in t
    ensures ReplacePair(EscapeSingle(t), '\\', '\'', '\'') == t
    decreases |t|
  {
    if |t| > 0 {
      SecondPassUndoesSingleQuotes(t[1..]);
      var e := EscapeSingle(t);
      if t[0] == '\'' {
        assert e == ['\\', t[0]] + EscapeSingle(t[1..]);
        assert e[2..] == EscapeSingle(t[1..]);
      } else {
        assert e == [t[0]] + EscapeSingle(t[1..]);
        assert e[1..] == EscapeSingle(t[1..]);
        if |e| >= 2 {
          assert e[0] != '\\';
        }
      }
      assert t == [t[0]] + t[1..];
    }
  }

  /** Unescaping undoes escaping for every text without backslashes. */
  lemma UnescapeEscape(t: string)
    requires '\\' !in t
    ensures Unescape(Escape(t)) == t
  {
    FirstPassUndoesDoubleQuotes(t);
    SecondPassUndoesSingleQuotes(t);
  }

  /** Minimum length, exclusive, of a kept bullet. */
  const BulletThreshold: nat := 20

  /** One quoted piece of a job's description list, unescaped and trimmed. */
  function CleanBullet(raw: string): (r: string)
    ensures Trimmed(r)
  {
    Trim(Unescape(raw))
  }

  /** The pieces longer than 20 characters, in their original order. */
  function LongOnly(ds: seq<string>): (r: seq<string>)
    ensures |r| <= |ds|
    ensures forall i :: 0 <= i < |r| ==> |r[i]| > BulletThreshold
    decreases |ds|
  {
    if |ds| == 0 then []
    else
      var d := ds[|ds| - 1];
      LongOnly(ds[..|ds| - 1]) + (if |d| > BulletThreshold then [d] else [])
  }

  /** The bullets of one job: the cleaned pieces longer than 20 characters, in their original order. */
  function KeptBullets(raws: seq<string>): seq<string>
  {
    LongOnly(Map(CleanBullet, raws))
  }

  predicate AllTrimmed(ds: seq<string>)
  {
    forall i :: 0 <= i < |ds| ==> Trimmed(ds[i])
  }

  lemma CleanAllTrimmed(raws: seq<string>)
    ensures AllTrimmed(Map(CleanBullet, raws))
  {
    MapPointwise(CleanBullet, raws);
  }

  lemma {:induction false} LongOnlyTrimmed(ds: seq<string>)
    requires AllTrimmed(ds)
    ensures AllTrimmed(LongOnly(ds))
    decreases |ds|
  {
    if |ds| > 0 {
      var p, d := ds[..|ds| - 1], ds[|ds| - 1];
      assert AllTrimmed(p) by {
        forall i | 0 <= i < |p| ensures Trimmed(p[i]) {
          assert p[i] == ds[i];
        }
      }
      LongOnlyTrimmed(p);
      var tail := if |d| > BulletThreshold then [d] else [];
      assert LongOnly(ds) == LongOnly(p) + tail;
      forall i | 0 <= i < |LongOnly(ds)| ensures Trimmed(LongOnly(ds)[i]) {
        if i < |LongOnly(p)| {
          assert LongOnly(ds)[i] == LongOnly(p)[i];
        } else {
          assert LongOnly(ds)[i] == d;
        }
      }
    }
  }

  /** Every kept bullet is longer than 20 characters and has no white space at either end. */
  lemma KeptBulletsShape(raws: seq<string>)
    ensures forall i :: 0 <= i < |KeptBullets(raws)| ==> |KeptBullets(raws)[i]| > BulletThreshold && Trimmed(KeptBullets(raws)[i])
  {
    CleanAllTrimmed(raws);
    LongOnlyTrimmed(Map(CleanBullet, raws));
  }

  /** Keeping long pieces distributes over concatenation: the kept ones stay in input order. */
  lemma {:induction false} LongOnlyAppend(a: seq<string>, b: seq<string>)
    ensures LongOnly(a + b) == LongOnly(a) + LongOnly(b)
    decreases |b|
  {
    if |b| == 0 {
      assert a + b == a;
    } else {
      var b' := b[..|b| - 1];
      assert (a + b)[..|a + b| - 1] == a + b';
      assert (a + b)[|a + b| - 1] == b[|b| - 1];
      LongOnlyAppend(a, b');
    }
  }

  /** A piece is kept exactly when it occurs in the input and is longer than 20 characters. */
  lemma {:induction false} LongOnlyExactly(ds: seq<string>)
    ensures forall d :: d in LongOnly(ds) <==> d in ds && |d| > BulletThreshold
    decreases |ds|
  {
    if |ds| > 0 {
      var p := ds[..|ds| - 1];
      LongOnlyExactly(p);
      assert ds == p + [ds[|ds| - 1]];
    }
  }

  /** The kept bullets of a job are exactly its long cleaned pieces, and appending pieces appends bullets. */
  lemma KeptBulletsExactly(raws: seq<string>, more: seq<string>)
    ensures forall d :: d in KeptBullets(raws) <==> d in Map(CleanBullet, raws) && |d| > BulletThreshold
    ensures KeptBullets(raws + more) == KeptBullets(raws) + KeptBullets(more)
  {
    LongOnlyExactly(Map(CleanBullet, raws));
    MapAppend(CleanBullet, raws, more);
    LongOnlyAppend(Map(CleanBullet, raws), Map(CleanBullet, more));
  }

  /** The inner `while (combinedRegex.exec(...))` loop of `extractJobs`, over the quoted pieces it finds. */
  method CleanDescriptions(raws: seq<string>) returns (description: seq<string>)
    ensures description == KeptBullets(raws)
  {
    description := [];
    var i := 0;
    while i < |raws|
      invariant 0 <= i <= |raws|
      invariant description == KeptBullets(raws[..i])
    {
      var cleanedDesc := CleanBullet(raws[i]);
      KeptBulletsStep(raws, i);
      if |cleanedDesc| > 0 && |cleanedDesc| > BulletThreshold {
        description := description + [cleanedDesc];
      }
      i := i + 1;
    }
    assert raws[..|raws|] == raws;
  }

  /** One more piece adds its cleaned form to the bullets when that is long enough. */
  lemma KeptBulletsStep(raws: seq<string>, i: nat)
    requires i < |raws|
    ensures KeptBullets(raws[..i + 1])
            == KeptBullets(raws[..i]) + (if |CleanBullet(raws[i])| > BulletThreshold then [CleanBullet(raws[i])] else [])
  {
    var done := Map(CleanBullet, raws[..i]);
    var c := CleanBullet(raws[i]);
    MapSnoc(CleanBullet, raws, i);
    assert (done + [c])[..|done|] == done;
  }

  /** What the `Job(...)` pattern captured for one job: three fields and the quoted pieces of its list. */
  datatype JobCapture = JobCapture(company: string, title: string, dates: string, pieces: seq<string>)

  datatype Job = Job(company: string, title: string, dates: string, description: seq<string>)

  /** `extractJobs`: one job per match, in match order, each with its kept bullets. */
  method ExtractJobs(captures: seq<JobCapture>) returns (jobs: seq<Job>)
    ensures jobs == JobsOf(captures)
  {
    jobs := [];
    var i := 0;
    while i < |captures|
      invariant 0 <= i <= |captures|
      invariant jobs == JobsOf(captures[..i])
    {
      var job := ExtractJob(captures[i]);
      MapSnoc(JobOf, captures, i);
      jobs := jobs + [job];
      i := i + 1;
    }
    assert captures[..|captures|] == captures;
  }

  /** The body of the `jobRegex.exec` loop for one match. */
  method ExtractJob(c: JobCapture) returns (job: Job)
    ensures job == JobOf(c)
  {
    var description := CleanDescriptions(c.pieces);
    job := Job(c.company, c.title, c.dates, description);
  }

  /** The jobs `extractJobs` builds from its matches. */
  function JobOf(c: JobCapture): Job
  {
    Job(c.company, c.title, c.dates, KeptBullets(c.pieces))
  }

  /** The jobs `extractJobs` builds, one per capture, in match order. */
  function JobsOf(captures: seq<JobCapture>): seq<Job>
  {
    Map(JobOf, captures)
  }

  /** Job `i` is built from match `i` alone: its three fields and the kept bullets of its pieces. */
  lemma JobsOfPointwise(captures: seq<JobCapture>)
    ensures |JobsOf(captures)| == |captures|
    ensures forall i :: 0 <= i < |captures| ==>
              JobsOf(captures)[i] == Job(captures[i].company, captures[i].title, captures[i].dates, KeptBullets(captures[i].pieces))
  {
    MapPointwise(JobOf, captures);
  }

  // ------------------------------------------------------------- education

  const DefaultSchool := "Case Western Reserve University"
  const DefaultDates := "September 2020 - May 2025"
  const DefaultDegree := "Computer Science B.S. '24, M.S. '25"
  const DefaultMinors := "Minors in Music & Mathematics"
  const DefaultGpa := "GPA: 3.8/4.0"

  /** `capture || fallback`: a missing capture and an empty one are both falsy. */
  function OrDefault(capture: Option<string>, fallback: string): (r: string)
    ensures capture.Some? && capture.value != "" ==> r == capture.value
    ensures capture.None? || capture.value == "" ==> r == fallback
  {
    if capture.Some? && capture.value != "" then capture.value else fallback
  }

  /** What the education patterns captured; `courses` are the quoted course names, in source order. */
  datatype EducationCapture = EducationCapture(
    school: Option<string>, dates: Option<string>, degree: Option<string>,
    minors: Option<string>, gpa: Option<string>, courses: seq<string>)

  datatype Education = Education(
    school: string, dates: string, degree: string, minors: string, gpa: string,
    coursework: seq<string>)

  /** `Array.from(new Set(courses)).sort()`. */
  function Coursework(courses: seq<string>): (r: seq<string>)
    ensures NoDuplicates(r)
    ensures forall i, j :: 0 <= i < j < |r| ==> Below(r[i], r[j])
    ensures forall c :: c in r <==> c in courses
  {
    var d := Dedup(courses);
    SortDistinct(d);
    Sort(d)
  }

  /**
   * `extractEducation`: the school is taken whenever its pattern matched (a ternary), every
   * other field falls back to its default when missing or empty (`||`).
   */
  function EducationOf(c: EducationCapture): (e: Education)
    ensures c.school.Some? ==> e.school == c.school.value
    ensures c.school.None? ==> e.school == DefaultSchool
    ensures e.dates == OrDefault(c.dates, DefaultDates)
    ensures e.degree == OrDefault(c.degree, DefaultDegree)
    ensures e.minors == OrDefault(c.minors, DefaultMinors)
    ensures e.gpa == OrDefault(c.gpa, DefaultGpa)
    ensures e.coursework == Coursework(c.courses)
  {
    Education(
      if c.school.Some? then c.school.value else DefaultSchool,
      OrDefault(c.dates, DefaultDates),
      OrDefault(c.degree, DefaultDegree),
      OrDefault(c.minors, DefaultMinors),
      OrDefault(c.gpa, DefaultGpa),
      Coursework(c.courses))
  }

  /** With nothing matched at all the record is made entirely of the fixed defaults. */
  lemma NothingMatchedGivesDefaults()
    ensures EducationOf(EducationCapture(None, None, None, None, None, []))
         == Education(DefaultSchool, DefaultDates, DefaultDegree, DefaultMinors, DefaultGpa, [])
  {
  }

  // -------------------------------------------------------------- projects

  /** What the `Project(...)` pattern captured: the name, the quoted pieces of the description and the technologies. */
  datatype ProjectCapture = ProjectCapture(name: string, pieces: seq<string>, technologies: seq<string>)

  datatype Project = Project(name: string, description: string, technologies: seq<string>)

  /** The description is the pieces joined with nothing between them (`''` when there are none). */
  function ProjectOf(c: ProjectCapture): Project
  {
    Project(c.name, Join(c.pieces, ""), c.technologies)
  }

  /** Joining with `''` is plain concatenation, in order. */
  lemma {:induction false} JoinNothing(a: seq<string>, b: seq<string>)
    ensures Join(a + b, "") == Join(a, "") + Join(b, "")
  {
    if |a| == 0 {
      assert a + b == b;
    } else if |b| == 0 {
      assert a + b == a;
    } else {
      JoinSplit(a, b, "");
    }
  }

  /** A description holds every piece in order: it is the first piece followed by the rest. */
  lemma ProjectDescriptionInOrder(c: ProjectCapture)
    ensures |c.pieces| == 0 ==> ProjectOf(c).description == ""
    ensures |c.pieces| > 0 ==> ProjectOf(c).description == c.pieces[0] + Join(c.pieces[1..], "")
  {
    if |c.pieces| > 0 {
      assert c.pieces == [c.pieces[0]] + c.pieces[1..];
      JoinNothing([c.pieces[0]], c.pieces[1..]);
    }
  }

  /** `extractProjects`: one project per match, in match order. */
  method ExtractProjects(captures: seq<ProjectCapture>) returns (projects: seq<Project>)
    ensures |projects| == |captures|
    ensures forall i :: 0 <= i < |projects| ==> projects[i] == ProjectOf(captures[i])
  {
    projects := [];
    var i := 0;
    while i < |captures|
      invariant 0 <= i <= |captures|
      invariant |projects| == i
      invariant forall k :: 0 <= k < i ==> projects[k] == ProjectOf(captures[k])
    {
      var c := captures[i];
      var description := Join(c.pieces, "");
      projects := projects + [Project(c.name, description, c.technologies)];
      i := i + 1;
    }
  }

  // --------------------------------------------------------------- contact

  /** The ASCII digits that `\d` matches. */
  predicate Digits(s: string, n: nat)
  {
    |s| == n && forall i :: 0 <= i < |s| ==> '0' <= s[i] <= '9'
  }

  /** The three digit groups captured from a phone number. */
  datatype PhoneDigits = PhoneDigits(area: string, exchange: string, line: string)

  predicate WellFormed(p: PhoneDigits)
  {
    Digits(p.area, 3) && Digits(p.exchange, 3) && Digits(p.line, 4)
  }

  /** `(${area}) ${exchange}-${line}`. */
  function FormatPhone(p: PhoneDigits): (s: string)
    ensures WellFormed(p) ==> |s| == 14
  {
    "(" + p.area + ") " + p.exchange + "-" + p.line
  }

  /** The pattern `\((\d{3})\) (\d{3})-(\d{4})` matched against a whole text. */
  function ParsePhone(s: string): (p: Option<PhoneDigits>)
    ensures p.Some? ==> WellFormed(p.value)
  {
    if |s| == 14 && s[0] == '(' && s[4] == ')' && s[5] == ' ' && s[9] == '-'
       && Digits(s[1..4], 3) && Digits(s[6..9], 3) && Digits(s[10..14], 4)
    then Some(PhoneDigits(s[1..4], s[6..9], s[10..14]))
    else None
  }

  /** The formatted phone is exactly a text of the shape `(ddd) ddd-dddd`, and it gives back its groups. */
  lemma PhoneRoundTrip(p: PhoneDigits, s: string)
    ensures WellFormed(p) ==> ParsePhone(FormatPhone(p)) == Some(p)
    ensures ParsePhone(s).Some? ==> FormatPhone(ParsePhone(s).value) == s
  {
    if WellFormed(p) {
      var f := FormatPhone(p);
      assert f[1..4] == p.area && f[6..9] == p.exchange && f[10..14] == p.line;
    }
    if ParsePhone(s).Some? {
      assert s == s[..1] + s[1..4] + s[4..6] + s[6..9] + s[9..10] + s[10..14];
    }
  }

  /** `pat` occurs in `s` starting at `k`. */
  predicate OccursAt(s: string, pat: string, k: nat)
  {
    k + |pat| <= |s| && s[k..k + |pat|] == pat
  }

  /** The first occurrence of `pat` in `s` at or after `from`. */
  function FindFrom(s: string, pat: string, from: nat): (k: Option<nat>)
    ensures k.Some? ==> from <= k.value && OccursAt(s, pat, k.value)
                        && forall j :: from <= j < k.value ==> !OccursAt(s, pat, j)
    ensures k.None? ==> forall j :: from <= j ==> !OccursAt(s, pat, j)
    decreases |s| - from
  {
    if from + |pat| > |s| then None
    else if s[from..from + |pat|] == pat then Some(from)
    else FindFrom(s, pat, from + 1)
  }

  /** `s.replace(pat, replacement)` with a string pattern: only the first occurrence is replaced. */
  function ReplaceFirst(s: string, pat: string, replacement: string): (r: string)
    ensures FindFrom(s, pat, 0).None? ==> r == s
    ensures FindFrom(s, pat, 0).Some? ==>
              var k := FindFrom(s, pat, 0).value;
              r == s[..k] + replacement + s[k + |pat|..] && forall j :: 0 <= j < k ==> !OccursAt(s, pat, j)
  {
    match FindFrom(s, pat, 0)
    case None => s
    case Some(k) => s[..k] + replacement + s[k + |pat|..]
  }

  /** A location is spelled out: `Hts` becomes `Heights`, once, and only the first time. */
  lemma LocationSpelledOut(loc: string)
    ensures (forall j :: !OccursAt(loc, "Hts", j)) ==> ReplaceFirst(loc, "Hts", "Heights") == loc
    ensures (exists j :: OccursAt(loc, "Hts", j)) ==>
              exists k: nat :: k + 3 <= |loc| && ReplaceFirst(loc, "Hts", "Heights") == loc[..k] + "Heights" + loc[k + 3..]
                               && forall j :: 0 <= j < k ==> !OccursAt(loc, "Hts", j)
  {
    var f := FindFrom(loc, "Hts", 0);
    if f.Some? {
      var k := f.value;
      assert OccursAt(loc, "Hts", k);
      assert ReplaceFirst(loc, "Hts", "Heights") == loc[..k] + "Heights" + loc[k + 3..];
    }
  }

  /** What the profile patterns captured, `profile` saying whether the profile section was found at all. */
  datatype ContactCapture = ContactCapture(
    profile: bool, location: Option<string>, email: Option<string>, phone: Option<PhoneDigits>,
    linkedin: Option<string>, github: Option<string>, website: bool)

  datatype Contact = Contact(
    location: string, email: string, phone: string, linkedin: string, github: string, website: string)

  const NoContact := Contact("", "", "", "", "", "")

  /** The record `extractContactInfo` returns. */
  function ContactOf(c: ContactCapture): Contact
  {
    if !c.profile then NoContact
    else Contact(
      if c.location.Some? then ReplaceFirst(c.location.value, "Hts", "Heights") else "",
      c.email.GetOr(""),
      if c.phone.Some? then FormatPhone(c.phone.value) else "",
      if c.linkedin.Some? then "linkedin.com/in/" + c.linkedin.value + "/" else "",
      if c.github.Some? then "github.com/" + c.github.value else "",
      if c.website then "sorenschultz.com" else "")
  }

  /** `extractContactInfo`: every field starts empty and is written when its pattern matched. */
  method ExtractContactInfo(c: ContactCapture) returns (info: Contact)
    ensures info == ContactOf(c)
    ensures !c.profile ==> info == NoContact
    ensures c.profile ==> info.location == (if c.location.Some? then ReplaceFirst(c.location.value, "Hts", "Heights") else "")
    ensures c.profile ==> info.email == c.email.GetOr("")
    ensures c.profile ==> info.phone == (if c.phone.Some? then FormatPhone(c.phone.value) else "")
    ensures c.profile ==> info.linkedin == (if c.linkedin.Some? then "linkedin.com/in/" + c.linkedin.value + "/" else "")
    ensures c.profile ==> info.github == (if c.github.Some? then "github.com/" + c.github.value else "")
    ensures c.profile ==> info.website == (if c.website then "sorenschultz.com" else "")
  {
    info := NoContact;
    if !c.profile {
      return;
    }
    if c.location.Some? {
      info := info.(location := ReplaceFirst(c.location.value, "Hts", "Heights"));
    }
    if c.email.Some? {
      info := info.(email := c.email.value);
    }
    if c.phone.Some? {
      info := info.(phone := FormatPhone(c.phone.value));
    }
    if c.linkedin.Some? {
      info := info.(linkedin := "linkedin.com/in/" + c.linkedin.value + "/");
    }
    if c.github.Some? {
      info := info.(github := "github.com/" + c.github.value);
    }
    if c.website {
      info := info.(website := "sorenschultz.com");
    }
  }

  // ---------------------------------------------------------------- layout

  /** One `- item` line per item, in order. */
  function Bullets(xs: seq<string>): string
    decreases |xs|
  {
    if |xs| == 0 then "" else Bullets(xs[..|xs| - 1]) + "- " + xs[|xs| - 1] + "\n"
  }

  /** The bullet lines of a concatenation are those of each part, in order. */
  lemma {:induction false} BulletsAppend(a: seq<string>, b: seq<string>)
    ensures Bullets(a + b) == Bullets(a) + Bullets(b)
    decreases |b|
  {
    if |b| == 0 {
      assert a + b == a;
    } else {
      var b' := b[..|b| - 1];
      assert (a + b)[..|a + b| - 1] == a + b';
      assert (a + b)[|a + b| - 1] == b[|b| - 1];
      BulletsAppend(a, b');
    }
  }

  function HeaderText(c: Contact): string
  {
    "SOREN SCHULTZ\n" + c.location + "\n" + c.email + "\n" + c.phone + "\n"
    + c.linkedin + "\n" + c.github + "\n" + c.website + "\n" + "\n"
  }

  function SummaryText(summary: string): string
  {
    "PROFESSIONAL SUMMARY\n" + summary + "\n\n"
  }

  /** The coursework block, present only when there is coursework. */
  function CourseworkBlock(courses: seq<string>): string
  {
    if |courses| > 0 then "Relevant Coursework:\n" + Bullets(courses) + "\n" else ""
  }

  function EducationLines(e: Education): string
  {
    "EDUCATION\n" + e.school + "\n" + e.degree + "\n" + e.minors + "\n" + e.gpa + "\n" + e.dates + "\n\n"
  }

  function EducationText(e: Education): string
  {
    EducationLines(e) + CourseworkBlock(e.coursework)
  }

  function JobBlock(j: Job): string
  {
    j.title + "\n" + j.company + "\n" + j.dates + "\n" + Bullets(j.description)
  }

  function JobBlocks(jobs: seq<Job>): (r: seq<string>)
    ensures |r| == |jobs|
    decreases |jobs|
  {
    if |jobs| == 0 then [] else JobBlocks(jobs[..|jobs| - 1]) + [JobBlock(jobs[|jobs| - 1])]
  }

  /** The experience section: the job blocks separated by one empty line. */
  function ExperienceText(jobs: seq<Job>): string
  {
    "EXPERIENCE\n" + Join(JobBlocks(jobs), "\n") + "\n"
  }

  datatype SkillEntry = SkillEntry(category: string, skills: seq<string>)

  function SkillBlock(e: SkillEntry): string
  {
    e.category + ":\n" + Join(e.skills, ", ") + "\n\n"
  }

  function SkillBlocks(entries: seq<SkillEntry>): string
    decreases |entries|
  {
    if |entries| == 0 then "" else SkillBlocks(entries[..|entries| - 1]) + SkillBlock(entries[|entries| - 1])
  }

  function SkillsText(entries: seq<SkillEntry>): string
  {
    "SKILLS\n" + SkillBlocks(entries)
  }

  function ProjectBlock(p: Project): string
  {
    p.name + "\n" + Join(p.technologies, ", ") + "\n" + p.description + "\n"
  }

  function ProjectBlocks(projects: seq<Project>): (r: seq<string>)
    ensures |r| == |projects|
    decreases |projects|
  {
    if |projects| == 0 then [] else ProjectBlocks(projects[..|projects| - 1]) + [ProjectBlock(projects[|projects| - 1])]
  }

  /** The projects section: the project blocks separated by one empty line. */
  function ProjectsText(projects: seq<Project>): string
  {
    "PROJECTS\n" + Join(ProjectBlocks(projects), "\n") + "\n"
  }

  function DiplomasText(diplomas: seq<string>): string
  {
    "DIPLOMAS AND CERTIFICATIONS\n" + Bullets(diplomas)
  }

  /** The whole text file, section by section. */
  function Document(contact: Contact, summary: string, education: Education, jobs: seq<Job>,
                    skills: seq<SkillEntry>, projects: seq<Project>, diplomas: seq<string>): string
  {
    HeaderText(contact) + SummaryText(summary) + EducationText(education) + ExperienceText(jobs)
    + SkillsText(skills) + ProjectsText(projects) + DiplomasText(diplomas)
  }

  /** The `Relevant Coursework:` block is there exactly when there is coursework. */
  lemma CourseworkBlockWhenNonempty(courses: seq<string>)
    ensures CourseworkBlock(courses) == "" <==> |courses| == 0
  {
    if |courses| > 0 {
      assert |CourseworkBlock(courses)| >= |"Relevant Coursework:\n"|;
    }
  }

  /** Each item is one `- item` line. */
  lemma BulletsSingle(c: string)
    ensures Bullets([c]) == "- " + c + "\n"
  {
    assert [c][..0] == [];
  }

  /** A job block is never empty and ends its last line. */
  lemma JobBlockEndsLine(j: Job)
    ensures |JobBlock(j)| > 0 && JobBlock(j)[|JobBlock(j)| - 1] == '\n'
  {
    BulletsEndLine(j.description);
  }

  lemma {:induction false} BulletsEndLine(xs: seq<string>)
    ensures |Bullets(xs)| > 0 ==> Bullets(xs)[|Bullets(xs)| - 1] == '\n'
  {
  }

  /**
   * Appending a job appends its block after one newline; as every block ends its own last line,
   * that newline makes exactly one empty line between consecutive jobs.
   */
  lemma ExperienceSeparation(jobs: seq<Job>, j: Job)
    ensures |jobs| == 0 ==> Join(JobBlocks(jobs + [j]), "\n") == JobBlock(j)
    ensures |jobs| > 0 ==> Join(JobBlocks(jobs + [j]), "\n") == Join(JobBlocks(jobs), "\n") + "\n" + JobBlock(j)
  {
    assert (jobs + [j])[..|jobs|] == jobs;
    var bs := JobBlocks(jobs);
    var b := JobBlock(j);
    assert JobBlocks(jobs + [j]) == bs + [b];
    JoinSnoc(bs, b, "\n");
  }

  /** Appending a project appends its block after one newline, so one empty line separates consecutive projects. */
  lemma ProjectsSeparation(projects: seq<Project>, p: Project)
    ensures |projects| == 0 ==> Join(ProjectBlocks(projects + [p]), "\n") == ProjectBlock(p)
    ensures |projects| > 0 ==> Join(ProjectBlocks(projects + [p]), "\n") == Join(ProjectBlocks(projects), "\n") + "\n" + ProjectBlock(p)
  {
    assert (projects + [p])[..|projects|] == projects;
    var bs := ProjectBlocks(projects);
    var b := ProjectBlock(p);
    assert ProjectBlocks(projects + [p]) == bs + [b];
    JoinSnoc(bs, b, "\n");
  }

  /** A project block is never empty and ends its last line. */
  lemma ProjectBlockEndsLine(p: Project)
    ensures |ProjectBlock(p)| > 0 && ProjectBlock(p)[|ProjectBlock(p)| - 1] == '\n'
  {
  }

  /** Each category is followed by its list joined with `, ` and an empty line, in entry order. */
  lemma {:induction false} SkillBlocksAppend(a: seq<SkillEntry>, b: seq<SkillEntry>)
    ensures SkillBlocks(a + b) == SkillBlocks(a) + SkillBlocks(b)
    decreases |b|
  {
    if |b| == 0 {
      assert a + b == a;
    } else {
      var b' := b[..|b| - 1];
      assert (a + b)[..|a + b| - 1] == a + b';
      assert (a + b)[|a + b| - 1] == b[|b| - 1];
      SkillBlocksAppend(a, b');
      Associate(SkillBlocks(a), SkillBlocks(b'), SkillBlock(b[|b| - 1]));
    }
  }

  /** `xs.forEach(x => output += `- ${x}\n`)`. */
  method AppendBullets(output: string, xs: seq<string>) returns (out: string)
    ensures out == output + Bullets(xs)
  {
    out := output;
    for i := 0 to |xs|
      invariant out == output + Bullets(xs[..i])
    {
      assert xs[..i + 1][..i] == xs[..i];
      out := out + "- " + xs[i] + "\n";
    }
    assert xs[..|xs|] == xs;
  }

  /** One job's lines: title, company, dates and its bullets. */
  method AppendJob(output: string, job: Job) returns (out: string)
    ensures out == output + JobBlock(job)
  {
    out := output + job.title + "\n";
    out := out + job.company + "\n";
    out := out + job.dates + "\n";
    out := AppendBullets(out, job.description);
  }

  /** The jobs up to and including job `i`, joined: one more block, after a newline unless it is the first. */
  lemma JobsPrefixStep(jobs: seq<Job>, i: nat)
    requires i < |jobs|
    ensures Join(JobBlocks(jobs[..i + 1]), "\n") == Join(JobBlocks(jobs[..i]), "\n") + (if i > 0 then "\n" else "") + JobBlock(jobs[i])
  {
    assert jobs[..i + 1] == jobs[..i] + [jobs[i]];
    ExperienceSeparation(jobs[..i], jobs[i]);
  }

  /** The text after the loop has run over the first `i` jobs from `start`: each block, then a newline unless it was the last job. */
  function JobsSoFar(start: string, jobs: seq<Job>, i: nat): string
    requires i <= |jobs|
  {
    if i == 0 then start
    else JobsSoFar(start, jobs, i - 1) + JobBlock(jobs[i - 1]) + (if i < |jobs| then "\n" else "")
  }

  /** After `i` jobs the loop has written the first `i` blocks joined by newlines, plus the separator still owed. */
  lemma {:induction false} JobsSoFarJoined(start: string, jobs: seq<Job>, i: nat)
    requires i <= |jobs|
    ensures JobsSoFar(start, jobs, i) == start + Join(JobBlocks(jobs[..i]), "\n") + (if 0 < i < |jobs| then "\n" else "")
  {
    if i > 0 {
      JobsSoFarJoined(start, jobs, i - 1);
      JobsPrefixStep(jobs, i - 1);
      Reassociate(start, Join(JobBlocks(jobs[..i - 1]), "\n"), if i - 1 > 0 then "\n" else "", JobBlock(jobs[i - 1]));
    }
  }

  lemma Associate(a: string, b: string, c: string)
    ensures a + b + c == a + (b + c)
  {
  }

  lemma Reassociate(a: string, b: string, c: string, d: string)
    ensures a + b + c + d == a + (b + c + d)
  {
  }

  /** The experience section: its heading, then the `jobs.forEach` loop with a blank line after every job but the last. */
  method AppendExperience(output: string, jobs: seq<Job>) returns (out: string)
    ensures out == output + ExperienceText(jobs)
  {
    var start := output + "EXPERIENCE\n";
    out := start;
    for i := 0 to |jobs|
      invariant out == JobsSoFar(start, jobs, i)
    {
      out := AppendJob(out, jobs[i]);
      if i < |jobs| - 1 {
        out := out + "\n";
      }
    }
    JobsSoFarJoined(start, jobs, |jobs|);
    assert jobs[..|jobs|] == jobs;
    out := out + "\n";
  }

  /** The skills section: its heading, then the `Object.entries(skills).forEach` loop. */
  method AppendSkills(output: string, entries: seq<SkillEntry>) returns (out: string)
    ensures out == output + SkillsText(entries)
  {
    var start := output + "SKILLS\n";
    out := start;
    for i := 0 to |entries|
      invariant out == start + SkillBlocks(entries[..i])
    {
      assert entries[..i + 1][..i] == entries[..i];
      out := out + entries[i].category + ":\n";
      out := out + Join(entries[i].skills, ", ") + "\n\n";
    }
    assert entries[..|entries|] == entries;
  }

  /** One project's lines: name, technologies and description. */
  method AppendProject(output: string, project: Project) returns (out: string)
    ensures out == output + ProjectBlock(project)
  {
    out := output + project.name + "\n";
    out := out + Join(project.technologies, ", ") + "\n";
    out := out + project.description + "\n";
  }

  /** The projects up to and including project `i`, joined: one more block, after a newline unless it is the first. */
  lemma ProjectsPrefixStep(projects: seq<Project>, i: nat)
    requires i < |projects|
    ensures Join(ProjectBlocks(projects[..i + 1]), "\n") == Join(ProjectBlocks(projects[..i]), "\n") + (if i > 0 then "\n" else "") + ProjectBlock(projects[i])
  {
    assert projects[..i + 1] == projects[..i] + [projects[i]];
    ProjectsSeparation(projects[..i], projects[i]);
  }

  /** The text after the loop has run over the first `i` projects from `start`: each block, then a newline unless it was the last project. */
  function ProjectsSoFar(start: string, projects: seq<Project>, i: nat): string
    requires i <= |projects|
  {
    if i == 0 then start
    else ProjectsSoFar(start, projects, i - 1) + ProjectBlock(projects[i - 1]) + (if i < |projects| then "\n" else "")
  }

  /** After `i` projects the loop has written the first `i` blocks joined by newlines, plus the separator still owed. */
  lemma {:induction false} ProjectsSoFarJoined(start: string, projects: seq<Project>, i: nat)
    requires i <= |projects|
    ensures ProjectsSoFar(start, projects, i) == start + Join(ProjectBlocks(projects[..i]), "\n") + (if 0 < i < |projects| then "\n" else "")
  {
    if i > 0 {
      ProjectsSoFarJoined(start, projects, i - 1);
      ProjectsPrefixStep(projects, i - 1);
      Reassociate(start, Join(ProjectBlocks(projects[..i - 1]), "\n"), if i - 1 > 0 then "\n" else "", ProjectBlock(projects[i - 1]));
    }
  }

  /** The projects section: its heading, then the `projects.forEach` loop with a blank line after every project but the last. */
  method AppendProjects(output: string, projects: seq<Project>) returns (out: string)
    ensures out == output + ProjectsText(projects)
  {
    var start := output + "PROJECTS\n";
    out := start;
    for i := 0 to |projects|
      invariant out == ProjectsSoFar(start, projects, i)
    {
      out := AppendProject(out, projects[i]);
      if i < |projects| - 1 {
        out := out + "\n";
      }
    }
    ProjectsSoFarJoined(start, projects, |projects|);
    assert projects[..|projects|] == projects;
    out := out + "\n";
  }

  function ProjectsOf(captures: seq<ProjectCapture>): (r: seq<Project>)
    ensures |r| == |captures|
  {
    seq(|captures|, i requires 0 <= i < |captures| => ProjectOf(captures[i]))
  }

  /** The header lines of `generateResumeTxt`. */
  method AppendHeader(output: string, contact: Contact) returns (out: string)
    ensures out == output + HeaderText(contact)
  {
    out := output + "SOREN SCHULTZ\n";
    out := out + contact.location + "\n";
    out := out + contact.email + "\n";
    out := out + contact.phone + "\n";
    out := out + contact.linkedin + "\n";
    out := out + contact.github + "\n";
    out := out + contact.website + "\n";
    out := out + "\n";
  }

  method AppendSummary(output: string, summary: string) returns (out: string)
    ensures out == output + SummaryText(summary)
  {
    out := output + "PROFESSIONAL SUMMARY\n";
    out := out + summary + "\n\n";
  }

  /** The `diplomas.forEach` loop under its heading. */
  method AppendDiplomas(output: string, diplomas: seq<string>) returns (out: string)
    ensures out == output + DiplomasText(diplomas)
  {
    out := output + "DIPLOMAS AND CERTIFICATIONS\n";
    out := AppendBullets(out, diplomas);
  }

  /** The five education lines under their heading. */
  method AppendEducationLines(output: string, education: Education) returns (out: string)
    ensures out == output + EducationLines(education)
  {
    out := output + "EDUCATION\n";
    out := out + education.school + "\n";
    ghost var acc := "EDUCATION\n" + education.school + "\n";
    assert out == output + acc;
    out := out + education.degree + "\n";
    acc := acc + education.degree + "\n";
    assert out == output + acc;
    out := out + education.minors + "\n";
    acc := acc + education.minors + "\n";
    assert out == output + acc;
    out := out + education.gpa + "\n";
    acc := acc + education.gpa + "\n";
    assert out == output + acc;
    out := out + education.dates + "\n\n";
  }

  /** The education lines, the coursework block only when there is coursework. */
  method AppendEducation(output: string, education: Education) returns (out: string)
    ensures out == output + EducationText(education)
  {
    out := AppendEducationLines(output, education);
    ghost var fields := out;
    if |education.coursework| > 0 {
      out := out + "Relevant Coursework:\n";
      out := AppendBullets(out, education.coursework);
      out := out + "\n";
      Reassociate(fields, "Relevant Coursework:\n", Bullets(education.coursework), "\n");
    }
    assert out == fields + CourseworkBlock(education.coursework);
  }

  /**
   * `generateResumeTxt`: the header, the summary, education, experience, skills, projects and
   * diplomas, each built from what its extractor returns. The skill entries and the diplomas
   * are taken as already extracted.
   */
  method GenerateResumeTxt(contactCapture: ContactCapture, summaryCapture: Option<string>,
                           educationCapture: EducationCapture, jobCaptures: seq<JobCapture>,
                           skills: seq<SkillEntry>, projectCaptures: seq<ProjectCapture>,
                           diplomas: seq<string>) returns (output: string)
    ensures output == Document(ContactOf(contactCapture), Summary(summaryCapture), EducationOf(educationCapture),
                               JobsOf(jobCaptures), skills, ProjectsOf(projectCaptures), diplomas)
  {
    output := "";
    var contact := ExtractContactInfo(contactCapture);
    output := AppendHeader(output, contact);

    ghost var h := HeaderText(contact);
    assert output == h;
    var summary := Summary(summaryCapture);
    output := AppendSummary(output, summary);
    ghost var acc := h + SummaryText(summary);
    assert output == acc;
    var education := EducationOf(educationCapture);
    output := AppendEducation(output, education);
    acc := acc + EducationText(education);
    assert output == acc;
    var jobs := ExtractJobs(jobCaptures);
    output := AppendExperience(output, jobs);
    acc := acc + ExperienceText(jobs);
    assert output == acc;
    output := AppendSkills(output, skills);
    acc := acc + SkillsText(skills);
    assert output == acc;
    var projects := ExtractProjects(projectCaptures);
    output := AppendProjects(output, projects);
    acc := acc + ProjectsText(projects);
    assert output == acc;
    output := AppendDiplomas(output, diplomas);
    acc := acc + DiplomasText(diplomas);
    assert output == acc;
    assert jobs == JobsOf(jobCaptures);
    assert projects == ProjectsOf(projectCaptures);
    assert acc == Document(contact, summary, education, jobs, skills, projects, diplomas);
  }
}
