/** Printing and parsing the identifiers of benchmark cases: `repo__task__fN_fM`. */
module CaseId {
  import opened Wrappers
  import opened Decimal

  datatype Case = Case(repo: string, task: nat, first: nat, second: nat)

  /** A code unit that `.` does not match: a line feed, a carriage return, a line or paragraph separator. */
  predicate EndsLine(c: char) {
    c == '\n' || c == '\r' || c == '\U{2028}' || c == '\U{2029}'
  }

  predicate OneLine(s: string) {
    forall i :: 0 <= i < |s| ==> !EndsLine(s[i])
  }

  function Format(c: Case): string {
    c.repo + "__" + Print(c.task) + "__f" + Print(c.first) + "_f" + Print(c.second)
  }

  // ----- parsing -----

  /** The digits that `\d+` takes: as many as there are. */
  function DigitRun(s: string): (n: nat)
    ensures n <= |s| && AllDigits(s[..n])
    ensures n < |s| ==> !IsDigit(s[n])
  {
    if s == "" || !IsDigit(s[0]) then 0
    else
      var n := DigitRun(s[1..]);
      assert s[1..][..n] == s[1..n + 1];
      n + 1
  }

  datatype Field = Field(digits: string, rest: string)

  /** `mark` followed by `\d+`. */
  function TakeField(s: string, mark: string): (r: Option<Field>)
    ensures r.Some? ==> s == mark + r.value.digits + r.value.rest
    ensures r.Some? ==> r.value.digits != "" && AllDigits(r.value.digits)
  {
    if !(mark <= s) then None
    else
      var tail := s[|mark|..];
      var n := DigitRun(tail);
      if n == 0 then None else
      assert s == mark + tail && tail == tail[..n] + tail[n..];
      assert s == mark + tail[..n] + tail[n..];
      Some(Field(tail[..n], tail[n..]))
  }

  datatype Suffix = Suffix(task: string, first: string, second: string)

  function SuffixText(t: Suffix): string {
    "__" + t.task + "__f" + t.first + "_f" + t.second
  }

  predicate HasDigits(t: Suffix) {
    && t.task != "" && AllDigits(t.task)
    && t.first != "" && AllDigits(t.first)
    && t.second != "" && AllDigits(t.second)
  }

  /** `__(\d+)__f(\d+)_f(\d+)$`, every `\d+` taking as many digits as it can. */
  function MatchSuffix(s: string): (r: Option<Suffix>)
    ensures r.Some? ==> HasDigits(r.value) && s == SuffixText(r.value)
  {
    var task := TakeField(s, "__");
    if task.None? then None else
    var first := TakeField(task.value.rest, "__f");
    if first.None? then None else
    var second := TakeField(first.value.rest, "_f");
    if second.None? || second.value.rest != "" then None else
    SuffixAssembled(s, task.value, first.value, second.value);
    Some(Suffix(task.value.digits, first.value.digits, second.value.digits))
  }

  lemma SuffixAssembled(s: string, a: Field, b: Field, c: Field)
    requires s == "__" + a.digits + a.rest
    requires a.rest == "__f" + b.digits + b.rest
    requires b.rest == "_f" + c.digits + c.rest && c.rest == ""
    ensures s == SuffixText(Suffix(a.digits, b.digits, c.digits))
  {
    assert b.rest == "_f" + c.digits;
    assert a.rest == "__f" + b.digits + ("_f" + c.digits);
  }

  datatype Match = Match(repo: string, suffix: Suffix)

  /** What the expression describes, without saying how the text is searched. */
  predicate Matches(s: string, m: Match) {
    m.repo != "" && OneLine(m.repo) && HasDigits(m.suffix) && s == m.repo + SuffixText(m.suffix)
  }

  /** `^(.+?)…$`: the shortest nonempty repository, free of line ends, that leaves a suffix. */
  function ShortestMatch(s: string, k: nat): (r: Option<Match>)
    requires k <= |s| && OneLine(s[..k])
    ensures r.Some? ==> Matches(s, r.value)
    decreases |s| - k
  {
    if k == |s| || EndsLine(s[k]) then None else
    assert s[..k + 1] == s[..k] + [s[k]] && s == s[..k + 1] + s[k + 1..];
    var suffix := MatchSuffix(s[k + 1..]);
    if suffix.Some? then Some(Match(s[..k + 1], suffix.value)) else ShortestMatch(s, k + 1)
  }

  /** None stands for the error thrown on a text that does not match. */
  function Parse(s: string): Option<Case> {
    match ShortestMatch(s, 0)
    case None => None
    case Some(m) => Some(Case(m.repo, Value(m.suffix.task), Value(m.suffix.first), Value(m.suffix.second)))
  }

  // ----- the search finds the only match -----

  lemma {:induction false} DigitRunOf(d: string, rest: string)
    requires AllDigits(d) && (rest == "" || !IsDigit(rest[0]))
    ensures DigitRun(d + rest) == |d|
  {
    if d == "" {
      assert d + rest == rest;
    } else {
      DigitRunOf(d[1..], rest);
      assert (d + rest)[1..] == d[1..] + rest;
    }
  }

  lemma TakeFieldFinds(s: string, mark: string, d: string, rest: string)
    requires s == mark + d + rest && d != "" && AllDigits(d) && (rest == "" || !IsDigit(rest[0]))
    ensures TakeField(s, mark) == Some(Field(d, rest))
  {
    DigitRunOf(d, rest);
    assert s == mark + (d + rest);
    assert s[|mark|..] == d + rest;
    assert (d + rest)[..|d|] == d && (d + rest)[|d|..] == rest;
  }

  /** Giving digits back never makes a suffix match. */
  lemma SuffixFound(t: Suffix)
    requires HasDigits(t)
    ensures MatchSuffix(SuffixText(t)) == Some(t)
  {
    var c := "_f" + t.second;
    var b := "__f" + t.first + c;
    assert SuffixText(t) == "__" + t.task + b;
    TakeFieldFinds(SuffixText(t), "__", t.task, b);
    TakeFieldFinds(b, "__f", t.first, c);
    assert c == "_f" + t.second + "";
    TakeFieldFinds(c, "_f", t.second, "");
  }

  lemma FieldsUnique(p: string, q: string, mark: string, d: string, e: string)
    requires mark != "" && !IsDigit(mark[|mark| - 1]) && AllDigits(d) && AllDigits(e)
    requires p + mark + d == q + mark + e
    ensures p == q && d == e
  {
    TrailingDigitsUnique(p + mark, d, q + mark, e);
    assert p == (p + mark)[..|p|] && q == (q + mark)[..|q|];
  }

  /** A text is a case identifier in at most one way, even when the repository looks like a suffix itself. */
  lemma UniqueSplit(s: string, m: Match, n: Match)
    requires Matches(s, m) && Matches(s, n)
    ensures m == n
  {
    var m1, n1 := m.repo + "__" + m.suffix.task, n.repo + "__" + n.suffix.task;
    var m2, n2 := m1 + "__f" + m.suffix.first, n1 + "__f" + n.suffix.first;
    assert s == m2 + "_f" + m.suffix.second;
    assert s == n2 + "_f" + n.suffix.second;
    FieldsUnique(m2, n2, "_f", m.suffix.second, n.suffix.second);
    FieldsUnique(m1, n1, "__f", m.suffix.first, n.suffix.first);
    FieldsUnique(m.repo, n.repo, "__", m.suffix.task, n.suffix.task);
  }

  lemma {:induction false} ShortestIsOnly(s: string, m: Match, k: nat)
    requires Matches(s, m) && k < |m.repo| && OneLine(s[..k])
    ensures ShortestMatch(s, k) == Some(m)
    decreases |s| - k
  {
    assert s[k] == m.repo[k];
    assert s[..k + 1] == s[..k] + [s[k]];
    if MatchSuffix(s[k + 1..]).Some? {
      UniqueSplit(s, ShortestMatch(s, k).value, m);
    } else {
      if k + 1 == |m.repo| {
        assert s[k + 1..] == SuffixText(m.suffix);
        SuffixFound(m.suffix);
        assert false;
      }
      ShortestIsOnly(s, m, k + 1);
    }
  }

  // ----- printing and parsing -----

  /** A text parses if and only if it is a one-line repository followed by a suffix. */
  lemma ParsesIffMatches(s: string)
    ensures Parse(s).Some? <==> exists m :: Matches(s, m)
  {
    if m :| Matches(s, m) { ShortestIsOnly(s, m, 0); }
  }

  lemma FormattedMatch(c: Case) returns (t: Suffix)
    ensures t == Suffix(Print(c.task), Print(c.first), Print(c.second)) && HasDigits(t)
    ensures Format(c) == c.repo + SuffixText(t)
  {
    t := Suffix(Print(c.task), Print(c.first), Print(c.second));
    assert Format(c) == c.repo + SuffixText(t);
  }

  /** Parsing a formatted identifier gives the case back exactly if the repository is a nonempty single line. */
  lemma RoundTrip(c: Case)
    ensures Parse(Format(c)) == Some(c) <==> c.repo != "" && OneLine(c.repo)
  {
    var t := FormattedMatch(c);
    if c.repo != "" && OneLine(c.repo) {
      ShortestIsOnly(Format(c), Match(c.repo, t), 0);
      PrintThenValue(c.task);
      PrintThenValue(c.first);
      PrintThenValue(c.second);
    }
  }

  /** Formatting a parsed text gives the text back exactly if none of its numbers has a superfluous zero. */
  lemma ParseThenFormat(s: string, m: Match)
    requires Matches(s, m)
    ensures Parse(s).Some?
    ensures Format(Parse(s).value) == s
       <==> IsNumeral(m.suffix.task) && IsNumeral(m.suffix.first) && IsNumeral(m.suffix.second)
  {
    ShortestIsOnly(s, m, 0);
    var c := Parse(s).value;
    var t := FormattedMatch(c);
    if Format(c) == s {
      UniqueSplit(s, m, Match(c.repo, t));
      PrintThenValue(c.task);
      PrintThenValue(c.first);
      PrintThenValue(c.second);
    }
    if IsNumeral(m.suffix.task) && IsNumeral(m.suffix.first) && IsNumeral(m.suffix.second) {
      ValueThenPrint(m.suffix.task);
      ValueThenPrint(m.suffix.first);
      ValueThenPrint(m.suffix.second);
      assert t == m.suffix;
    }
  }

  /** Different cases never share an identifier. */
  lemma FormatInjective(c: Case, d: Case)
    requires c.repo != "" && d.repo != "" && OneLine(c.repo) && OneLine(d.repo)
    requires Format(c) == Format(d)
    ensures c == d
  {
    RoundTrip(c);
    RoundTrip(d);
  }

  /** What an identifier looks like. */
  lemma FormatText()
    ensures Format(Case("r", 12, 3, 4)) == "r__12__f3_f4"
  {
    assert Print(12) == "12" && Print(3) == "3" && Print(4) == "4";
  }
}
