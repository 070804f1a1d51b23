/** librdkafka-style properties text: the parser, the printer with its redacted entries, and exactly
    which maps survive the round trip. */
module Properties {
  import opened Outcomes

  const REDACTION_PLACEHOLDER := "***"
  const REDACTED_PREFIX := "# REDACTED: "

  datatype ParseError =
    | NoSeparator(line: nat)
    | NoKey(line: nat)
    | Duplicate(line: nat, key: string)

  // ---------------------------------------------------------------- text

  /** Unicode White_Space, the set trimming uses. */
  predicate IsWhitespace(c: char) {
    var n := c as int;
    || 0x09 <= n <= 0x0D || n == 0x20 || n == 0x85 || n == 0xA0 || n == 0x1680
    || 0x2000 <= n <= 0x200A || n == 0x2028 || n == 0x2029 || n == 0x202F || n == 0x205F || n == 0x3000
  }

  function TrimStart(s: string): (t: string)
    ensures |t| <= |s| && (t != [] ==> !IsWhitespace(t[0]) && t[|t| - 1] == s[|s| - 1])
    ensures s != [] && !IsWhitespace(s[0]) ==> t == s
    ensures forall c :: c in t ==> c in s
  {
    if s != [] && IsWhitespace(s[0]) then TrimStart(s[1..]) else s
  }

  function TrimEnd(s: string): (t: string)
    ensures |t| <= |s| && t <= s && (t != [] ==> !IsWhitespace(t[|t| - 1]))
    ensures s != [] && !IsWhitespace(s[|s| - 1]) ==> t == s
  {
    if s != [] && IsWhitespace(s[|s| - 1]) then TrimEnd(s[..|s| - 1]) else s
  }

  /** Position of the first `c`, or the length of the text. */
  function IndexOf(s: string, c: char): (i: nat)
    ensures i <= |s| && (i < |s| ==> s[i] == c) && forall k :: 0 <= k < i ==> s[k] != c
  {
    if s == [] || s[0] == c then 0 else 1 + IndexOf(s[1..], c)
  }

  function StripCr(s: string): string {
    if s != [] && s[|s| - 1] == '\r' then s[..|s| - 1] else s
  }

  /** `str::lines`. */
  function Lines(s: string): seq<string> {
    var i := IndexOf(s, '\n');
    if s == [] then []
    else if i == |s| then [s]
    else [StripCr(s[..i])] + Lines(s[i + 1..])
  }

  // ---------------------------------------------------------------- parsing

  datatype Line = Ignored | NoEquals | EmptyKey | Pair(key: string, value: string)

  /** Drops one leading space and trailing whitespace. */
  function ParseValue(v: string): (r: string)
    ensures |r| <= |v|
  {
    TrimEnd(if v != [] && v[0] == ' ' then v[1..] else v)
  }

  predicate IsIgnored(line: string) {
    var t := TrimStart(line);
    t == [] || t[0] == '#' || t[0] == ';'
  }

  function ParseLine(line: string): Line {
    var t := TrimStart(line);
    var i := IndexOf(t, '=');
    if IsIgnored(line) then Ignored
    else if i == |t| then NoEquals
    else
      var key := TrimEnd(TrimStart(t[..i]));
      if key == [] then EmptyKey else Pair(key, ParseValue(t[i + 1..]))
  }

  /** The entries of lines from number `n` on, added to those read so far. */
  function Collect(lines: seq<Line>, n: nat, m: map<string, string>): Result<map<string, string>, ParseError>
    decreases |lines|
  {
    if lines == [] then Ok(m)
    else
      match lines[0]
      case Ignored => Collect(lines[1..], n + 1, m)
      case NoEquals => Err(NoSeparator(n + 1))
      case EmptyKey => Err(NoKey(n + 1))
      case Pair(k, v) => if k in m then Err(Duplicate(n + 1, k)) else Collect(lines[1..], n + 1, m[k := v])
  }

  /** What each line of a text says. */
  function Says(s: string): seq<Line> { var lines := Lines(s); seq(|lines|, i requires 0 <= i < |lines| => ParseLine(lines[i])) }

  function Parsed(s: string): Result<map<string, string>, ParseError> { Collect(Says(s), 0, map[]) }

  /** `parse_librdkafka_properties`. */
  method Parse(s: string) returns (r: Result<map<string, string>, ParseError>)
    ensures r == Parsed(s)
  {
    var out: map<string, string> := map[];
    var lines := Lines(s);
    var n := 0;
    while n < |lines|
      invariant 0 <= n <= |lines| && Parsed(s) == Collect(Says(s)[n..], n, out)
    {
      assert Says(s)[n..][1..] == Says(s)[n + 1..];
      match ParseLine(lines[n]) {
        case Ignored =>
        case NoEquals => return Err(NoSeparator(n + 1));
        case EmptyKey => return Err(NoKey(n + 1));
        case Pair(key, value) =>
          if key in out { return Err(Duplicate(n + 1, key)); }
          out := out[key := value];
      }
      n := n + 1;
    }
    return Ok(out);
  }

  // ---------------------------------------------------------------- printing

  function Block(k: string, v: string): string {
    if v == REDACTION_PLACEHOLDER then REDACTED_PREFIX + k + "=\n" else k + "=" + v + "\n"
  }

  function Render(m: map<string, string>, keys: seq<string>): string
    requires forall k :: k in keys ==> k in m
  {
    if keys == [] then []
    else
      var last := keys[|keys| - 1];
      Render(m, keys[..|keys| - 1]) + Block(last, m[last])
  }

  /** Order of strings by their characters. */
  predicate Before(a: string, b: string) {
    b != [] && (a == [] || a[0] < b[0] || (a[0] == b[0] && Before(a[1..], b[1..])))
  }

  predicate Sorted(keys: seq<string>) { forall i, j :: 0 <= i < j < |keys| ==> Before(keys[i], keys[j]) }

  lemma {:induction false} BeforeIsTotal(a: string, b: string)
    ensures a == b || Before(a, b) || Before(b, a)
    ensures !(Before(a, b) && Before(b, a)) && !Before(a, a)
  {
    if a != [] && b != [] && a[0] == b[0] {
      BeforeIsTotal(a[1..], b[1..]);
      assert a == [a[0]] + a[1..] && b == [b[0]] + b[1..];
    }
    if a != [] { BeforeIsTotal(a[1..], a[1..]); }
  }

  lemma {:induction false} BeforeIsTransitive(a: string, b: string, c: string)
    requires Before(a, b) && Before(b, c)
    ensures Before(a, c)
  {
    if a != [] && a[0] == b[0] && b[0] == c[0] { BeforeIsTransitive(a[1..], b[1..], c[1..]); }
  }

  method Smallest(keys: set<string>) returns (k: string)
    requires keys != {}
    ensures k in keys && forall j :: j in keys && j != k ==> Before(k, j)
  {
    k :| k in keys;
    var rest := keys - {k};
    while rest != {}
      invariant rest <= keys && k in keys && k !in rest
      invariant forall j :: j in keys - rest && j != k ==> Before(k, j)
    {
      var j :| j in rest;
      BeforeIsTotal(j, k);
      if Before(j, k) {
        forall i | i in keys - rest && i != k ensures Before(j, i) { BeforeIsTransitive(j, k, i); }
        k := j;
      }
      rest := rest - {j};
    }
  }

  method SortKeys(keys: set<string>) returns (sorted: seq<string>)
    ensures Sorted(sorted) && forall k :: k in sorted <==> k in keys
  {
    sorted := [];
    var rest := keys;
    while rest != {}
      invariant rest <= keys && (forall k :: k in sorted <==> k in keys && k !in rest)
      invariant Sorted(sorted) && forall i, k :: 0 <= i < |sorted| && k in rest ==> Before(sorted[i], k)
    {
      var k := Smallest(rest);
      sorted := sorted + [k];
      rest := rest - {k};
    }
  }

  method PushEntry(out: string, k: string, v: string) returns (s: string)
    ensures s == out + Block(k, v)
  {
    if v == REDACTION_PLACEHOLDER {
      s := out + REDACTED_PREFIX;
      s := s + k;
      s := s + "=\n";
    } else {
      s := out + k;
      s := s + "=";
      s := s + v;
      s := s + "\n";
    }
  }

  method RenderAll(m: map<string, string>, keys: seq<string>) returns (s: string)
    requires forall k :: k in keys ==> k in m
    ensures s == Render(m, keys)
  {
    s := "";
    var i := 0;
    while i < |keys|
      invariant 0 <= i <= |keys| && s == Render(m, keys[..i])
    {
      RenderAppends(m, keys[..i], keys[i]);
      assert keys[..i + 1] == keys[..i] + [keys[i]];
      s := PushEntry(s, keys[i], m[keys[i]]);
      i := i + 1;
    }
    assert keys[..i] == keys;
  }

  /** `serialize_librdkafka_properties`: the entries in the order of their keys. */
  method Serialize(m: map<string, string>) returns (s: string, ghost keys: seq<string>)
    ensures Sorted(keys) && (forall k :: k in keys <==> k in m)
    ensures s == Render(m, keys)
  {
    var sorted := SortKeys(m.Keys);
    keys := sorted;
    s := RenderAll(m, sorted);
  }

  lemma RenderAppends(m: map<string, string>, keys: seq<string>, k: string)
    requires k in m && forall j :: j in keys ==> j in m
    ensures Render(m, keys + [k]) == Render(m, keys) + Block(k, m[k])
  {
  }

  /** `redacted_keys`. */
  method RedactedKeys(m: map<string, string>) returns (redacted: seq<string>)
    ensures Sorted(redacted) && forall k :: k in redacted <==> k in m && m[k] == REDACTION_PLACEHOLDER
  {
    redacted := SortKeys(set k | k in m && m[k] == REDACTION_PLACEHOLDER);
  }

  // ---------------------------------------------------------------- the round trip

  /** The map without its redacted entries. */
  function Visible(m: map<string, string>): map<string, string> {
    map k | k in m && m[k] != REDACTION_PLACEHOLDER :: m[k]
  }

  predicate GoodKey(k: string) {
    && k != [] && '=' !in k && '\n' !in k && k[0] != '#' && k[0] != ';'
    && !IsWhitespace(k[0]) && !IsWhitespace(k[|k| - 1])
  }

  predicate GoodValue(v: string) {
    '\n' !in v && (v == [] || (v[0] != ' ' && !IsWhitespace(v[|v| - 1])))
  }

  /** All lines a redacted entry prints are comments or blank: a newline in its key must not start a line
      that means something. */
  predicate StaysComment(k: string) {
    forall line :: line in Lines(REDACTED_PREFIX + k + "=\n") ==> IsIgnored(line)
  }

  /** Every visible entry prints as one line that says the same, every redacted one as comments. */
  predicate Safe(m: map<string, string>) {
    forall k :: k in m ==> SafeEntry(k, m[k])
  }

  predicate SafeEntry(k: string, v: string) {
    if v == REDACTION_PLACEHOLDER then StaysComment(k) else GoodKey(k) && GoodValue(v)
  }

  lemma Regroup<T>(a: seq<T>, b: seq<T>, c: seq<T>)
    ensures (a + b) + c == a + (b + c)
  {
  }

  lemma IndexIs(s: string, c: char, i: nat)
    requires i < |s| && s[i] == c && forall k :: 0 <= k < i ==> s[k] != c
    ensures IndexOf(s, c) == i
  {
  }

  /** The text of a line without newline, ended by one. */
  lemma OneLine(a: string, b: string)
    requires '\n' !in a
    ensures Lines(a + "\n" + b) == [StripCr(a)] + Lines(b)
  {
    var s := a + "\n" + b;
    IndexIs(s, '\n', |a|);
    assert s[..|a|] == a && s[|a| + 1..] == b;
  }

  lemma SplitAtNewline(a: string, b: string, i: nat)
    requires a != [] && a[|a| - 1] == '\n' && i == IndexOf(a, '\n')
    ensures i < |a| && a == a[..i] + "\n" + a[i + 1..] && a + b == a[..i] + "\n" + (a[i + 1..] + b)
    ensures '\n' !in a[..i] && (a[i + 1..] != [] ==> a[i + 1..][|a[i + 1..]| - 1] == '\n')
  {
  }

  lemma {:induction false} LinesConcat(a: string, b: string)
    requires a != [] ==> a[|a| - 1] == '\n'
    ensures Lines(a + b) == Lines(a) + Lines(b)
    decreases |a|
  {
    if a == [] {
      assert a + b == b;
    } else {
      var i := IndexOf(a, '\n');
      SplitAtNewline(a, b, i);
      var first, rest := a[..i], a[i + 1..];
      LinesConcat(rest, b);
      OneLine(first, rest);
      OneLine(first, rest + b);
      Regroup([StripCr(first)], Lines(rest), Lines(b));
    }
  }

  /** A good key before its separator is read back as it is. */
  lemma KeyIsReadBack(k: string, rest: string)
    requires GoodKey(k)
    ensures ParseLine(k + "=" + rest) == Pair(k, ParseValue(rest))
  {
    var line := k + "=" + rest;
    IndexIs(line, '=', |k|);
    assert line[..|k|] == k && line[|k| + 1..] == rest;
  }

  lemma GoodEntryIsOneLine(k: string, v: string)
    requires GoodKey(k) && GoodValue(v) && v != REDACTION_PLACEHOLDER
    ensures Lines(Block(k, v)) == [k + "=" + v] && ParseLine(k + "=" + v) == Pair(k, v)
  {
    var line := k + "=" + v;
    OneLine(line, "");
    assert Block(k, v) == line + "\n" + "";
    assert line[|line| - 1] == if v == [] then '=' else v[|v| - 1];
    KeyIsReadBack(k, v);
  }

  lemma {:induction false} CollectSplits(a: seq<Line>, b: seq<Line>, n: nat, m: map<string, string>)
    ensures Collect(a + b, n, m) == (match Collect(a, n, m) case Err(e) => Err(e) case Ok(r) => Collect(b, n + |a|, r))
    decreases |a|
  {
    if a == [] {
      assert a + b == b;
    } else {
      assert (a + b)[1..] == a[1..] + b;
      if a[0].Ignored? { CollectSplits(a[1..], b, n + 1, m); }
      else if a[0].Pair? && a[0].key !in m { CollectSplits(a[1..], b, n + 1, m[a[0].key := a[0].value]); }
    }
  }

  /** The line says nothing, or says what `r` holds and `m` did not have. */
  predicate Recorded(line: Line, m: map<string, string>, r: map<string, string>) {
    line.Ignored? || (line.Pair? && line.key !in m && line.key in r && r[line.key] == line.value)
  }

  predicate SaidBy(lines: seq<Line>, k: string) {
    exists j :: 0 <= j < |lines| && lines[j].Pair? && lines[j].key == k
  }

  /** Lines that are collected say nothing or something new, and together they say all of it. */
  lemma {:induction false} CollectedMeans(lines: seq<Line>, n: nat, m: map<string, string>, r: map<string, string>)
    requires Collect(lines, n, m) == Ok(r)
    ensures forall line :: line in lines ==> Recorded(line, m, r)
    ensures forall k :: k in m ==> k in r && r[k] == m[k]
    ensures forall k :: k in r ==> k in m || SaidBy(lines, k)
    decreases |lines|
  {
    if lines != [] {
      var m1 := if lines[0].Pair? then m[lines[0].key := lines[0].value] else m;
      CollectedMeans(lines[1..], n + 1, m1, r);
      forall line | line in lines ensures Recorded(line, m, r) {
        if line != lines[0] { assert line in lines[1..] && Recorded(line, m1, r); }
      }
      forall k | k in r ensures k in m || SaidBy(lines, k) {
        if k !in m1 {
          var j :| 0 <= j < |lines[1..]| && lines[1..][j].Pair? && lines[1..][j].key == k;
          assert lines[j + 1] == lines[1..][j];
        }
      }
    }
  }

  // What Safe gives.

  lemma {:induction false} IgnoredLinesSayNothing(lines: seq<Line>, n: nat, m: map<string, string>)
    requires forall line :: line in lines ==> line.Ignored?
    ensures Collect(lines, n, m) == Ok(m)
    decreases |lines|
  {
    if lines != [] { IgnoredLinesSayNothing(lines[1..], n + 1, m); }
  }

  /** The lines of an entry when it prints as it should. */
  predicate FaithfulLines(lines: seq<Line>, k: string, v: string) {
    if v == REDACTION_PLACEHOLDER then forall line :: line in lines ==> line.Ignored? else lines == [Pair(k, v)]
  }

  lemma SafeEntryIsFaithful(k: string, v: string)
    requires SafeEntry(k, v)
    ensures FaithfulLines(Says(Block(k, v)), k, v)
  {
    if v != REDACTION_PLACEHOLDER { GoodEntryIsOneLine(k, v); }
  }

  predicate Distinct(keys: seq<string>) { forall i, j :: 0 <= i < j < |keys| ==> keys[i] != keys[j] }

  function VisibleAmong(m: map<string, string>, keys: seq<string>): map<string, string> {
    map k | k in m && k in keys && m[k] != REDACTION_PLACEHOLDER :: m[k]
  }

  /** The lines of entries one after the other. */
  function Flat(es: seq<seq<Line>>): seq<Line> { if es == [] then [] else Flat(es[..|es| - 1]) + es[|es| - 1] }

  lemma {:induction false} FlatSplits(es: seq<seq<Line>>, i: nat)
    requires i < |es|
    ensures Flat(es) == Flat(es[..i]) + es[i] + Flat(es[i + 1..])
    decreases |es|
  {
    var n := |es| - 1;
    if i < n {
      FlatSplits(es[..n], i);
      assert es[..n][..i] == es[..i] && es[i + 1..][..n - i - 1] == es[..n][i + 1..];
      Regroup(Flat(es[..i]) + es[i], Flat(es[..n][i + 1..]), es[n]);
    }
  }

  lemma VisibleGrows(m: map<string, string>, keys: seq<string>, k: string)
    requires k in m && k !in keys
    ensures VisibleAmong(m, keys + [k]) ==
            if m[k] == REDACTION_PLACEHOLDER then VisibleAmong(m, keys) else VisibleAmong(m, keys)[k := m[k]]
  {
  }

  lemma FaithfulIsCollected(lines: seq<Line>, k: string, v: string, n: nat, acc: map<string, string>)
    requires FaithfulLines(lines, k, v) && k !in acc
    ensures Collect(lines, n, acc) == Ok(if v == REDACTION_PLACEHOLDER then acc else acc[k := v])
  {
  }

  lemma {:induction false} AllFaithfulAreCollected(m: map<string, string>, keys: seq<string>, es: seq<seq<Line>>)
    requires |es| == |keys| && Distinct(keys) && forall k :: k in keys ==> k in m
    requires forall i :: 0 <= i < |es| ==> FaithfulLines(es[i], keys[i], m[keys[i]])
    ensures Collect(Flat(es), 0, map[]) == Ok(VisibleAmong(m, keys))
    decreases |keys|
  {
    if keys != [] {
      var n := |keys| - 1;
      var k, init := keys[n], keys[..n];
      AllFaithfulAreCollected(m, init, es[..n]);
      CollectSplits(Flat(es[..n]), es[n], 0, map[]);
      FaithfulIsCollected(es[n], k, m[k], |Flat(es[..n])|, VisibleAmong(m, init));
      VisibleGrows(m, init, k);
      assert keys == init + [k];
    }
  }

  /** What the printed entries say, one by one. */
  function EntriesOf(m: map<string, string>, keys: seq<string>): seq<seq<Line>>
    requires forall k :: k in keys ==> k in m
  {
    seq(|keys|, i requires 0 <= i < |keys| => Says(Block(keys[i], m[keys[i]])))
  }

  lemma SaysConcat(a: string, b: string)
    requires a != [] ==> a[|a| - 1] == '\n'
    ensures Says(a + b) == Says(a) + Says(b)
  {
    LinesConcat(a, b);
  }

  lemma RenderEndsLine(m: map<string, string>, keys: seq<string>)
    requires forall k :: k in keys ==> k in m
    ensures Render(m, keys) != [] ==> Render(m, keys)[|Render(m, keys)| - 1] == '\n'
  {
  }

  lemma {:induction false} RenderSays(m: map<string, string>, keys: seq<string>)
    requires forall k :: k in keys ==> k in m
    ensures Says(Render(m, keys)) == Flat(EntriesOf(m, keys))
    decreases |keys|
  {
    if keys != [] {
      var n := |keys| - 1;
      RenderSays(m, keys[..n]);
      RenderEndsLine(m, keys[..n]);
      SaysConcat(Render(m, keys[..n]), Block(keys[n], m[keys[n]]));
      assert EntriesOf(m, keys)[..n] == EntriesOf(m, keys[..n]);
    }
  }

  // What a faithful round trip needs.

  lemma ReadKeysAreGood(line: string)
    requires ParseLine(line).Pair? && '\n' !in line
    ensures GoodKey(ParseLine(line).key)
  {
  }

  lemma {:induction false} LinesHaveNoNewline(s: string, line: string)
    requires line in Lines(s)
    ensures '\n' !in line
    decreases |s|
  {
    var i := IndexOf(s, '\n');
    if i < |s| && line != StripCr(s[..i]) { LinesHaveNoNewline(s[i + 1..], line); }
  }

  lemma SaidKeyIsGood(s: string, k: string)
    requires SaidBy(Says(s), k)
    ensures GoodKey(k)
  {
    var j :| 0 <= j < |Says(s)| && Says(s)[j].Pair? && Says(s)[j].key == k;
    LinesHaveNoNewline(s, Lines(s)[j]);
    ReadKeysAreGood(Lines(s)[j]);
  }

  function Head(v: string): string { v[..IndexOf(v, '\n')] }

  lemma CrOfEntry(k: string, h: string)
    ensures StripCr(k + "=" + h) == k + "=" + StripCr(h)
  {
  }

  lemma ReadBackValueIsGood(v: string)
    requires ParseValue(StripCr(Head(v))) == v
    ensures GoodValue(v)
  {
  }

  lemma FirstLineOf(k: string, v: string)
    requires '\n' !in k && v != REDACTION_PLACEHOLDER
    ensures Lines(Block(k, v)) != [] && Lines(Block(k, v))[0] == k + "=" + StripCr(Head(v))
  {
    var i, text := IndexOf(v, '\n'), k + "=" + Head(v);
    var rest := if i < |v| then v[i + 1..] + "\n" else "";
    assert Block(k, v) == text + "\n" + rest;
    OneLine(text, rest);
    CrOfEntry(k, Head(v));
  }

  /** The first line of a visible entry with a good key says that key; it says the value only if the
      value is good. */
  lemma FirstLineSaysKey(k: string, v: string)
    requires GoodKey(k) && v != REDACTION_PLACEHOLDER
    ensures var said := Says(Block(k, v));
            said != [] && said[0].Pair? && said[0].key == k && (said[0].value == v ==> GoodValue(v))
  {
    FirstLineOf(k, v);
    KeyIsReadBack(k, StripCr(Head(v)));
    if ParseValue(StripCr(Head(v))) == v { ReadBackValueIsGood(v); }
  }

  /** A visible entry of a map that is read back faithfully is good. */
  lemma FaithfulVisibleIsGood(m: map<string, string>, keys: seq<string>, i: nat)
    requires (forall k :: k in keys <==> k in m) && i < |keys| && m[keys[i]] != REDACTION_PLACEHOLDER
    requires Parsed(Render(m, keys)) == Ok(Visible(m))
    ensures GoodKey(keys[i]) && GoodValue(m[keys[i]])
  {
    var k, es := keys[i], EntriesOf(m, keys);
    CollectedMeans(Says(Render(m, keys)), 0, map[], Visible(m));
    assert k in Visible(m);
    SaidKeyIsGood(Render(m, keys), k);
    FirstLineSaysKey(k, m[k]);
    RenderSays(m, keys);
    FlatSplits(es, i);
    assert es[i][0] in Flat(es);
    assert Recorded(es[i][0], map[], Visible(m));
  }

  /** A redacted entry of such a map says nothing: any line it did say would be said twice. */
  lemma FaithfulRedactedIsComment(m: map<string, string>, keys: seq<string>, i: nat)
    requires (forall k :: k in keys <==> k in m) && i < |keys| && m[keys[i]] == REDACTION_PLACEHOLDER
    requires Parsed(Render(m, keys)) == Ok(Visible(m))
    ensures forall line :: line in EntriesOf(m, keys)[i] ==> line.Ignored?
  {
    var es, r := EntriesOf(m, keys), Visible(m);
    RenderSays(m, keys);
    CollectedMeans(Flat(es), 0, map[], r);
    FlatSplits(es, i);
    forall line: Line | line in es[i] ensures line.Ignored? {
      assert line in Flat(es);
      if line.Pair? {
        var j :| 0 <= j < |keys| && keys[j] == line.key;
        FaithfulVisibleIsGood(m, keys, j);
        FirstLineSaysKey(keys[j], m[keys[j]]);
        SaidTwice(es, i, j, line, es[j][0], r);
      }
    }
  }

  /** A key said early is not said again later. */
  lemma SaidInOrder(a: seq<Line>, b: seq<Line>, x: Line, y: Line, r: map<string, string>)
    requires Collect(a + b, 0, map[]) == Ok(r) && x in a && y in b && x.Pair? && y.Pair?
    ensures x.key != y.key
  {
    CollectSplits(a, b, 0, map[]);
    var m := Collect(a, 0, map[]).value;
    CollectedMeans(a, 0, map[], m);
    CollectedMeans(b, |a|, m, r);
    assert Recorded(x, map[], m) && Recorded(y, m, r);
  }

  lemma SaidInOrderOfEntries(es: seq<seq<Line>>, i: nat, j: nat, x: Line, y: Line, r: map<string, string>)
    requires i < j < |es| && x in es[i] && y in es[j] && x.Pair? && y.Pair? && Collect(Flat(es), 0, map[]) == Ok(r)
    ensures x.key != y.key
  {
    var a, b := Flat(es[..j]), es[j] + Flat(es[j + 1..]);
    FlatSplits(es, j);
    assert Flat(es) == a + b;
    FlatSplits(es[..j], i);
    assert es[..j][i] == es[i];
    SaidInOrder(a, b, x, y, r);
  }

  /** Two entries cannot both say a key. */
  lemma SaidTwice(es: seq<seq<Line>>, i: nat, j: nat, a: Line, b: Line, r: map<string, string>)
    requires i < |es| && j < |es| && a in es[i] && b in es[j] && a.Pair? && b.Pair? && i != j
    requires Collect(Flat(es), 0, map[]) == Ok(r)
    ensures a.key != b.key
  {
    if i < j { SaidInOrderOfEntries(es, i, j, a, b, r); } else { SaidInOrderOfEntries(es, j, i, b, a, r); }
  }

  lemma SafeEntriesAreFaithful(m: map<string, string>, keys: seq<string>, i: nat)
    requires (forall k :: k in keys <==> k in m) && Safe(m) && i < |keys|
    ensures FaithfulLines(EntriesOf(m, keys)[i], keys[i], m[keys[i]])
  {
    assert keys[i] in m;
    SafeEntryIsFaithful(keys[i], m[keys[i]]);
  }

  lemma AllAreAmong(m: map<string, string>, keys: seq<string>)
    requires forall k :: k in keys <==> k in m
    ensures VisibleAmong(m, keys) == Visible(m)
  {
  }

  lemma SafeRoundTrips(m: map<string, string>, keys: seq<string>)
    requires Distinct(keys) && (forall k :: k in keys <==> k in m) && Safe(m)
    ensures Parsed(Render(m, keys)) == Ok(Visible(m))
  {
    var es := EntriesOf(m, keys);
    forall i | 0 <= i < |keys| ensures FaithfulLines(es[i], keys[i], m[keys[i]]) { SafeEntriesAreFaithful(m, keys, i); }
    AllFaithfulAreCollected(m, keys, es);
    RenderSays(m, keys);
    AllAreAmong(m, keys);
  }

  lemma FaithfulIsSafe(m: map<string, string>, keys: seq<string>, k: string)
    requires (forall j :: j in keys <==> j in m) && Parsed(Render(m, keys)) == Ok(Visible(m)) && k in m
    ensures SafeEntry(k, m[k])
  {
    var i :| 0 <= i < |keys| && keys[i] == k;
    if m[k] != REDACTION_PLACEHOLDER {
      FaithfulVisibleIsGood(m, keys, i);
    } else {
      FaithfulRedactedIsComment(m, keys, i);
      CommentLines(k, EntriesOf(m, keys)[i]);
    }
  }

  /** Parsing what was printed, in any order of keys, gives back the map without its redacted entries
      exactly when every visible key and value is good and every redacted entry stays a comment. */
  lemma RoundTripIff(m: map<string, string>, keys: seq<string>)
    requires Distinct(keys) && forall k :: k in keys <==> k in m
    ensures Parsed(Render(m, keys)) == Ok(Visible(m)) <==> Safe(m)
  {
    if Safe(m) { SafeRoundTrips(m, keys); }
    if Parsed(Render(m, keys)) == Ok(Visible(m)) {
      forall k | k in m ensures SafeEntry(k, m[k]) { FaithfulIsSafe(m, keys, k); }
    }
  }

  lemma CommentLines(k: string, lines: seq<Line>)
    requires lines == Says(Block(k, REDACTION_PLACEHOLDER)) && forall line :: line in lines ==> line.Ignored?
    ensures StaysComment(k)
  {
    var text := Lines(REDACTED_PREFIX + k + "=\n");
    forall line | line in text ensures IsIgnored(line) {
      var j :| 0 <= j < |text| && text[j] == line;
      assert lines[j] == ParseLine(line) && lines[j] in lines;
    }
  }

  lemma SortedIsDistinct(keys: seq<string>)
    requires Sorted(keys)
    ensures Distinct(keys)
  {
    forall i, j | 0 <= i < j < |keys| ensures keys[i] != keys[j] { BeforeIsTotal(keys[i], keys[j]); }
  }

  /** In particular, maps with plain keys and values round-trip, redacted keys included. */
  lemma PlainMapsRoundTrip(m: map<string, string>, keys: seq<string>)
    requires Sorted(keys) && forall k :: k in keys <==> k in m
    requires forall k :: k in m ==> GoodKey(k) && GoodValue(m[k])
    ensures Parsed(Render(m, keys)) == Ok(Visible(m))
  {
    SortedIsDistinct(keys);
    forall k | k in m && m[k] == REDACTION_PLACEHOLDER ensures StaysComment(k) {
      var line := REDACTED_PREFIX + k + "=";
      OneLine(line, "");
      assert REDACTED_PREFIX + k + "=\n" == line + "\n" + "";
      assert line[0] == '#' && line[|line| - 1] == '=';
    }
    RoundTripIff(m, keys);
  }

  lemma LeakedLines(head: string, tail: string)
    requires '\n' !in head && GoodKey(tail)
    ensures Lines(Block(head + "\n" + tail, REDACTION_PLACEHOLDER)) ==
            [StripCr(REDACTED_PREFIX + head), StripCr(tail + "=" + "")]
  {
    var first, second := REDACTED_PREFIX + head, tail + "=" + "";
    assert Block(head + "\n" + tail, REDACTION_PLACEHOLDER) == first + "\n" + (second + "\n" + "");
    OneLine(first, second + "\n" + "");
    OneLine(second, "");
  }

  lemma LeakedSays(head: string, tail: string)
    requires '\n' !in head && GoodKey(tail)
    ensures Says(Block(head + "\n" + tail, REDACTION_PLACEHOLDER)) == [Ignored, Pair(tail, "")]
  {
    var first, second := StripCr(REDACTED_PREFIX + head), tail + "=" + "";
    LeakedLines(head, tail);
    assert StripCr(second) == second;
    KeyIsReadBack(tail, "");
    assert first != [] && first[0] == '#' by { assert (REDACTED_PREFIX + head)[0] == '#'; }
    assert ParseLine(first) == Ignored;
  }

  lemma CommentThenEntry(k: string)
    ensures Collect([Ignored, Pair(k, "")], 0, map[]) == Ok(map[k := ""])
  {
    var rest := [Pair(k, "")];
    assert [Ignored, Pair(k, "")][1..] == rest && rest[1..] == [];
    assert Collect(rest, 1, map[]) == Collect(rest[1..], 2, map[k := ""]);
  }

  /** A newline in a redacted key brings the rest of the key back as an entry of its own. */
  lemma RedactedNewlineLeaks(head: string, tail: string)
    requires '\n' !in head && GoodKey(tail)
    ensures var k := head + "\n" + tail; Parsed(Render(map[k := REDACTION_PLACEHOLDER], [k])) == Ok(map[tail := ""])
  {
    var k := head + "\n" + tail;
    var b := Block(k, REDACTION_PLACEHOLDER);
    RenderAppends(map[k := REDACTION_PLACEHOLDER], [], k);
    assert [] + [k] == [k] && [] + b == b;
    LeakedSays(head, tail);
    CommentThenEntry(tail);
  }
}
