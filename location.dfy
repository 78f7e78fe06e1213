/** `getLogLocation` (logger.service.ts, lines 8-31): the caller's
    `file:line`, read from the text of a stack trace. The trace is a parameter
    here; the source takes it from `new Error().stack`. */
module Location {
  import opened Wrappers
  import opened Text

  /** The frame filter: a call frame ("at ...") that is not inside a
      dependency, the logger itself or winston. */
  predicate IsCallerFrame(line: string)
  {
    && StartsWith(line, "at ")
    && !Contains(line, "node_modules")
    && !Contains(line, "logger.service")
    && !Contains(line, "winston")
  }

  /** The trace split at line feeds, each line trimmed. */
  function StackLines(stack: string): seq<string>
  {
    var parts := Split(stack, '\n');
    seq(|parts|, k requires 0 <= k < |parts| => Trim(parts[k]))
  }

  /** `find` with the frame filter: the index of the first qualifying line. */
  function FindCaller(lines: seq<string>): (r: Option<nat>)
    ensures r.None? <==> forall k | 0 <= k < |lines| :: !IsCallerFrame(lines[k])
    ensures r.Some? ==> r.value < |lines| && IsCallerFrame(lines[r.value])
    ensures r.Some? ==> forall k | 0 <= k < r.value :: !IsCallerFrame(lines[k])
  {
    if lines == [] then None
    else if IsCallerFrame(lines[0]) then Some(0)
    else match FindCaller(lines[1..])
      case None => None
      case Some(k) => Some(k + 1)
  }

  /** `s` ends in `:line:column` with the two colons at `k` and `m`: what the
      common tail `:(\d+):(\d+)$` of both frame patterns matches. */
  predicate TailAt(s: string, k: int, m: int)
  {
    && 0 <= k && k + 1 < m && m + 1 < |s|
    && s[k] == ':' && s[m] == ':'
    && IsDigits(s[k + 1..m]) && IsDigits(s[m + 1..])
  }

  /** The colons of the tail are determined by the string: the greedy `(.*)`
      in front of the tail cannot end anywhere else. */
  lemma TailUnique(s: string, k: int, m: int, k': int, m': int)
    requires TailAt(s, k, m) && TailAt(s, k', m')
    ensures k == k' && m == m'
  {
  }

  /** Start of the longest run of digits that ends just before `end`. */
  function DigitRunStart(s: string, end: nat): (i: nat)
    requires end <= |s|
    ensures i <= end && IsDigits(s[i..end])
    ensures i == 0 || !IsDigit(s[i - 1])
    decreases end
  {
    if end > 0 && IsDigit(s[end - 1]) then
      var i := DigitRunStart(s, end - 1);
      assert s[i..end] == s[i..end - 1] + [s[end - 1]];
      i
    else end
  }

  lemma {:induction false} DigitRunStartBelow(s: string, end: nat, j: nat)
    requires j <= end <= |s| && IsDigits(s[j..end])
    ensures DigitRunStart(s, end) <= j
    decreases end
  {
    if j < end {
      assert s[j..end][end - 1 - j] == s[end - 1];
      assert s[j..end - 1] == s[j..end][..end - 1 - j];
      DigitRunStartBelow(s, end - 1, j);
    }
  }

  /** A `:line:column` tail sits exactly after the last two digit runs. */
  lemma TailColons(s: string, k: int, m: int)
    requires TailAt(s, k, m)
    ensures DigitRunStart(s, |s|) == m + 1
    ensures DigitRunStart(s, m) == k + 1
  {
    DigitRunStartBelow(s, |s|, m + 1);
    DigitRunStartBelow(s, m, k + 1);
  }

  /** The positions of the two colons of the `:line:column` tail, if `s` has one. */
  function LineColumnTail(s: string): (r: Option<(nat, nat)>)
    ensures r.Some? ==> TailAt(s, r.value.0, r.value.1)
    ensures r.None? ==> forall k, m :: !TailAt(s, k, m)
  {
    var j2 := DigitRunStart(s, |s|);
    var j1 := if j2 == 0 then 0 else DigitRunStart(s, j2 - 1);
    if j2 == |s| || j2 == 0 || s[j2 - 1] != ':' || j1 == j2 - 1 || j1 == 0 || s[j1 - 1] != ':' then
      assert forall k, m | TailAt(s, k, m) :: false by {
        forall k, m | TailAt(s, k, m) ensures false {
          TailColons(s, k, m);
        }
      }
      None
    else
      assert s[j2..] == s[j2..|s|];
      Some((j1 - 1, j2 - 1))
  }

  predicate NoLineTerminator(s: string)
  {
    forall i | 0 <= i < |s| :: !IsLineTerminator(s[i])
  }

  /** `opener` occurs in `body` at position `i`. */
  predicate OpensAt(body: string, opener: string, i: int)
  {
    0 <= i && i + |opener| <= |body| && body[i..i + |opener|] == opener
  }

  /** The pattern `<opener>(.*):(\d+):(\d+)` matches `body` from position `i`
      to its end, with the colons of the tail at `k` and `m` (`.` does not
      match line terminators). */
  predicate PatternAt(body: string, opener: string, i: int, k: int, m: int)
  {
    && 0 <= i && i + |opener| <= k
    && TailAt(body, k, m)
    && OpensAt(body, opener, i)
    && NoLineTerminator(body[i + |opener|..k])
  }

  /** Leftmost `i` from `from` on at which the pattern matches, given its tail. */
  function FirstStart(body: string, opener: string, k: nat, m: nat, from: nat): (r: Option<nat>)
    requires TailAt(body, k, m)
    ensures r.Some? ==> from <= r.value && PatternAt(body, opener, r.value, k, m)
    ensures r.Some? ==> forall i | from <= i < r.value :: !PatternAt(body, opener, i, k, m)
    ensures r.None? ==> forall i | from <= i :: !PatternAt(body, opener, i, k, m)
    decreases k - from
  {
    if from + |opener| > k then None
    else if PatternAt(body, opener, from, k, m) then Some(from)
    else FirstStart(body, opener, k, m, from + 1)
  }

  /** `body.match(/<opener>(.*):(\d+):(\d+)$/)`: the leftmost match, as its
      path and line-number captures. */
  function MatchPattern(body: string, opener: string): (r: Option<(string, string)>)
    ensures r.Some? ==> r.value.1 != [] && IsDigits(r.value.1)
  {
    match LineColumnTail(body)
    case None => None
    case Some((k, m)) =>
      match FirstStart(body, opener, k, m, 0)
      case None => None
      case Some(i) => Some((body[i + |opener|..k], body[k + 1..m]))
  }

  /** The match exists exactly when the pattern matches somewhere; it is then
      the leftmost one, and its tail is the only possible tail. */
  lemma MatchPatternIsLeftmost(body: string, opener: string)
    ensures var r := MatchPattern(body, opener);
      && (r.None? <==> forall i, k, m :: !PatternAt(body, opener, i, k, m))
      && (r.Some? ==> exists i, k, m :: (
            && PatternAt(body, opener, i, k, m)
            && r.value == (body[i + |opener|..k], body[k + 1..m])
            && forall i', k', m' | PatternAt(body, opener, i', k', m') :: i <= i' && k' == k && m' == m))
  {
    match LineColumnTail(body)
    case None =>
    case Some((k, m)) =>
      forall i', k', m' | PatternAt(body, opener, i', k', m') ensures k' == k && m' == m {
        TailUnique(body, k, m, k', m');
      }
      match FirstStart(body, opener, k, m, 0)
      case None =>
      case Some(i) =>
        assert PatternAt(body, opener, i, k, m);
  }

  /** `line.match(/\((.*):(\d+):(\d+)\)$/) || line.match(/at (.*):(\d+):(\d+)$/)`. */
  function MatchFrame(line: string): (r: Option<(string, string)>)
    ensures r.Some? ==> r.value.1 != [] && IsDigits(r.value.1)
  {
    var parenthesised :=
      if line != [] && line[|line| - 1] == ')' then MatchPattern(line[..|line| - 1], "(") else None;
    if parenthesised.Some? then parenthesised else MatchPattern(line, "at ")
  }

  function StripTrailingSlashes(p: string): (r: string)
    ensures |r| <= |p| && r == p[..|r|]
    ensures r == [] || r[|r| - 1] != '/'
    ensures forall i | |r| <= i < |p| :: p[i] == '/'
  {
    if p != [] && p[|p| - 1] == '/' then StripTrailingSlashes(p[..|p| - 1]) else p
  }

  function AfterLastSlash(p: string): (r: string)
    ensures |r| <= |p| && r == p[|p| - |r|..]
    ensures '/' !in r
    ensures |r| < |p| ==> p[|p| - |r| - 1] == '/'
  {
    if p == [] || p[|p| - 1] == '/' then []
    else
      var r := AfterLastSlash(p[..|p| - 1]);
      assert p[|p| - |r| - 1..] == r + [p[|p| - 1]];
      r + [p[|p| - 1]]
  }

  /** POSIX `path.basename`: the last segment, trailing slashes ignored. */
  function Basename(p: string): (r: string)
    ensures '/' !in r
  {
    AfterLastSlash(StripTrailingSlashes(p))
  }

  /** The base name of `dir/name` is `name`, and a bare name is its own base name. */
  lemma BasenameOfJoined(dir: string, name: string)
    requires name != [] && '/' !in name
    ensures Basename(name) == name
    ensures Basename(dir + "/" + name) == name
  {
    var joined := dir + "/" + name;
    assert name[|name| - 1] in name;
    assert joined[|joined| - 1] == name[|name| - 1];
    assert StripTrailingSlashes(name) == name;
    assert StripTrailingSlashes(joined) == joined;
    AfterLastSlashOf(name, []);
    assert joined == (dir + "/") + name;
    AfterLastSlashOf(name, dir + "/");
  }

  lemma {:induction false} AfterLastSlashOf(name: string, dir: string)
    requires '/' !in name
    requires dir == [] || dir[|dir| - 1] == '/'
    ensures AfterLastSlash(dir + name) == name
  {
    if name == [] {
      assert dir + name == dir;
    } else {
      var rest, c := name[..|name| - 1], name[|name| - 1];
      assert dir + name == (dir + rest) + [c];
      assert name == rest + [c];
      AfterLastSlashOf(rest, dir);
      AfterLastSlashSnoc(dir + rest, c);
    }
  }

  /** A character other than a slash extends the last segment. */
  lemma AfterLastSlashSnoc(p: string, c: char)
    requires c != '/'
    ensures AfterLastSlash(p + [c]) == AfterLastSlash(p) + [c]
  {
    assert (p + [c])[..|p + [c]| - 1] == p;
  }

  /** The location named by the first caller frame among trimmed trace lines. */
  function CallerLocation(lines: seq<string>): (r: string)
    ensures r != "" ==> exists name, line :: (
      && r == name + ":" + line
      && '/' !in name && line != [] && IsDigits(line))
  {
    match FindCaller(lines)
    case None => ""
    case Some(k) =>
      match MatchFrame(lines[k])
      case None => ""
      case Some((path, line)) => Basename(path) + ":" + line
  }

  /** `getLogLocation`: `basename:line` of the first caller frame, or "" when
      there is no trace, no caller frame, or the first caller frame matches
      neither pattern (later frames are never tried). */
  function GetLogLocation(stack: Option<string>): (r: string)
    ensures stack.None? ==> r == ""
    ensures r != "" ==> exists name, line :: (
      && r == name + ":" + line
      && '/' !in name && line != [] && IsDigits(line))
  {
    if stack.None? || stack.value == "" then "" else CallerLocation(StackLines(stack.value))
  }

  /** A V8 frame of the first shape: `at fn (path:line:col)`. */
  function ParenFrame(fn: string, path: string, line: string, col: string): string
  {
    "at " + fn + " (" + (path + LineCol(line, col)) + ")"
  }

  /** A V8 frame of the second shape: `at path:line:col`. */
  function BareFrame(path: string, line: string, col: string): string
  {
    "at " + path + LineCol(line, col)
  }

  /** The `:line:col` ending of a frame. */
  function LineCol(line: string, col: string): string
  {
    ":" + line + ":" + col
  }

  /** `pre:line:col` has its tail right after `pre`. */
  lemma TailAfter(pre: string, line: string, col: string)
    requires line != [] && IsDigits(line) && col != [] && IsDigits(col)
    ensures TailAt(pre + LineCol(line, col), |pre|, |pre| + 1 + |line|)
    ensures (pre + LineCol(line, col))[|pre| + 1..|pre| + 1 + |line|] == line
  {
    var t := LineCol(line, col);
    var s := pre + t;
    assert t[1..1 + |line|] == line;
    assert t[1 + |line| + 1..] == col;
    assert s[|pre| + 1..|pre| + 1 + |line|] == t[1..1 + |line|];
    assert s[|pre| + 1 + |line| + 1..] == t[1 + |line| + 1..];
  }

  /** When the pattern matches at `i` and the opener occurs nowhere before `i`,
      the regular expression captures the text after the opener (from `j`)
      and the line. */
  lemma PatternLeftmost(body: string, opener: string, i: nat, j: nat, k: nat, m: nat, path: string, line: string)
    requires PatternAt(body, opener, i, k, m) && j == i + |opener|
    requires body[j..k] == path && body[k + 1..m] == line
    requires forall i' | 0 <= i' < i :: !OpensAt(body, opener, i')
    ensures MatchPattern(body, opener) == Some((path, line))
  {
    var t := LineColumnTail(body);
    assert t.Some?;
    TailUnique(body, k, m, t.value.0, t.value.1);
    var f := FirstStart(body, opener, k, m, 0);
    assert f.Some?;
    assert OpensAt(body, opener, f.value);
    assert !(f.value < i);
  }

  /** A line ending in `)` whose body matches the first pattern is resolved by it. */
  lemma MatchFrameParenthesised(body: string)
    requires MatchPattern(body, "(").Some?
    ensures MatchFrame(body + ")") == MatchPattern(body, "(")
  {
    assert (body + ")")[..|body + ")"| - 1] == body;
  }

  /** After an opening parenthesis, `path:line:col` is matched by the first
      pattern with the parenthesis as the opener. */
  lemma ParenBody(lead: string, path: string, line: string, col: string)
    requires lead != [] && lead[|lead| - 1] == '(' && NoLineTerminator(path)
    requires line != [] && IsDigits(line) && col != [] && IsDigits(col)
    ensures var body, k := lead + (path + LineCol(line, col)), |lead| + |path|;
      && PatternAt(body, "(", |lead| - 1, k, k + 1 + |line|)
      && body[|lead|..k] == path && body[k + 1..k + 1 + |line|] == line
  {
    TailAfterPath(lead, path, line, col);
    ParenCapture(lead, path, LineCol(line, col));
  }

  /** The tail of `lead + (path + ":line:col")` follows the path. */
  lemma TailAfterPath(lead: string, path: string, line: string, col: string)
    requires line != [] && IsDigits(line) && col != [] && IsDigits(col)
    ensures var body, k := lead + (path + LineCol(line, col)), |lead| + |path|;
      TailAt(body, k, k + 1 + |line|) && body[k + 1..k + 1 + |line|] == line
  {
    assert lead + (path + LineCol(line, col)) == (lead + path) + LineCol(line, col);
    TailAfter(lead + path, line, col);
  }

  /** The parenthesis that ends `lead` opens at its last position, and what
      follows it up to the end of `path` is `path`. */
  lemma ParenCapture(lead: string, path: string, rest: string)
    requires lead != [] && lead[|lead| - 1] == '('
    ensures var body := lead + (path + rest);
      && OpensAt(body, "(", |lead| - 1)
      && body[|lead| - 1 + |"("|..|lead| + |path|] == path
      && body[|lead|..|lead| + |path|] == path
  {
    var body := lead + (path + rest);
    assert body[|lead| - 1..|lead|] == [lead[|lead| - 1]];
    assert body[|lead|..|lead| + |path|] == path;
  }

  /** When the only parenthesis of `lead` is its last character, the first
      pattern matched against `lead` followed by `path:line:col` captures the
      path and the line. */
  lemma ParenMatch(lead: string, path: string, line: string, col: string)
    requires lead != [] && lead[|lead| - 1] == '(' && '(' !in lead[..|lead| - 1]
    requires NoLineTerminator(path)
    requires line != [] && IsDigits(line) && col != [] && IsDigits(col)
    ensures MatchPattern(lead + (path + LineCol(line, col)), "(") == Some((path, line))
  {
    var body := lead + (path + LineCol(line, col));
    var i, k := |lead| - 1, |lead| + |path|;
    ParenBody(lead, path, line, col);
    forall i' | 0 <= i' < i ensures !OpensAt(body, "(", i') {
      assert body[i'] == lead[..|lead| - 1][i'];
    }
    PatternLeftmost(body, "(", i, |lead|, k, k + 1 + |line|, path, line);
  }

  /** The first pattern gives back the path and line of a `(path:line:col)`
      frame, whatever the path holds (colons and digits included), as long as
      the function name has no parenthesis. */
  lemma ParenFrameResolves(fn: string, path: string, line: string, col: string)
    requires '(' !in fn && NoLineTerminator(path)
    requires line != [] && IsDigits(line) && col != [] && IsDigits(col)
    ensures MatchFrame(ParenFrame(fn, path, line, col)) == Some((path, line))
  {
    var lead := "at " + fn + " (";
    var body := lead + (path + LineCol(line, col));
    assert lead[..|lead| - 1] == "at " + fn + " ";
    ParenMatch(lead, path, line, col);
    MatchFrameParenthesised(body);
  }

  /** The second pattern gives back the path and line of an `at path:line:col` frame. */
  lemma BareFrameResolves(path: string, line: string, col: string)
    requires NoLineTerminator(path)
    requires line != [] && IsDigits(line) && col != [] && IsDigits(col)
    ensures MatchFrame(BareFrame(path, line, col)) == Some((path, line))
  {
    var pre := "at " + path;
    var frame := pre + LineCol(line, col);
    TailAfter(pre, line, col);
    AtCapture(path, LineCol(line, col));
    PatternLeftmost(frame, "at ", 0, 3, |pre|, |pre| + 1 + |line|, path, line);
    MatchFrameBare(pre, LineCol(line, col));
  }

  /** `at ` opens a frame `at path...`, and the path follows it. */
  lemma AtCapture(path: string, rest: string)
    ensures var frame := ("at " + path) + rest;
      && OpensAt(frame, "at ", 0)
      && frame[0 + |"at "|..|"at " + path|] == path
      && frame[3..|"at " + path|] == path
  {
    var frame := ("at " + path) + rest;
    assert frame[0..3] == "at ";
    assert frame[3..|"at " + path|] == path;
  }

  /** A line that does not end in `)` is resolved by the second pattern. */
  lemma MatchFrameBare(pre: string, tail: string)
    requires tail != [] && tail[|tail| - 1] != ')'
    ensures MatchFrame(pre + tail) == MatchPattern(pre + tail, "at ")
  {
    assert (pre + tail)[|pre + tail| - 1] == tail[|tail| - 1];
  }

  lemma FindCallerFirst(lines: seq<string>, k: nat)
    requires k < |lines|
    requires IsCallerFrame(lines[k]) && forall j | 0 <= j < k :: !IsCallerFrame(lines[j])
    ensures FindCaller(lines) == Some(k)
  {
  }

  lemma StackLinesOfTrimmed(lines: seq<string>)
    requires |lines| >= 1
    requires forall j | 0 <= j < |lines| :: '\n' !in lines[j] && Trim(lines[j]) == lines[j]
    ensures StackLines(Join(lines, '\n')) == lines
  {
    SplitJoin(lines, '\n');
  }

  /** The location comes from the first caller frame alone; if that frame
      matches neither pattern the result is "", even when a later frame would
      match. */
  lemma TraceResolvesFirstCaller(stack: string, k: nat)
    requires stack != "" && k < |StackLines(stack)|
    requires IsCallerFrame(StackLines(stack)[k])
    requires forall j | 0 <= j < k :: !IsCallerFrame(StackLines(stack)[j])
    ensures GetLogLocation(Some(stack)) ==
      match MatchFrame(StackLines(stack)[k])
      case None => ""
      case Some((path, line)) => Basename(path) + ":" + line
  {
    FindCallerFirst(StackLines(stack), k);
  }

  /** A trace in which every frame is internal, a dependency or not a frame
      resolves to "". */
  lemma TraceWithoutCallerResolvesEmpty(stack: string)
    requires forall j | 0 <= j < |StackLines(stack)| :: !IsCallerFrame(StackLines(stack)[j])
    ensures GetLogLocation(Some(stack)) == ""
  {
    var found := FindCaller(StackLines(stack));
    assert found.None?;
  }
}
