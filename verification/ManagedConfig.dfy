/**
 * The boot configuration files that the client writes and recognises again
 * (src/otaclient/boot_control/_grub_common.py): a header, the contents, and a footer with the
 * versions and a checksum of the contents.
 */
module ManagedConfig {
  import opened Prelude
  import opened Text

  const HEADER_1 := "# OTAClient" + " managed" + " configuration" + " file, DO" + " NOT EDIT!"
  const HEADER_2 := "# Manual" + " edits to" + " this file" + " will NOT be" + " preserved" + " across OTA!"
  const HEADER := HEADER_1 + "\n" + HEADER_2 + "\n"
  const MARK := "# ------"
  const MANAGED := " OTA managed"
  const METADATA := " metadata"
  const KRAM := " ------ #"
  const HEAD_TEXT := MARK + MANAGED + METADATA + KRAM
  const TAIL_TEXT := MARK + " End of" + MANAGED + METADATA + KRAM
  const FOOTER_HEAD := HEAD_TEXT + "\n"
  const FOOTER_TAIL := TAIL_TEXT + "\n"

  datatype Cfg = Cfg(contents: string, grubVersion: string, otaclientVersion: string)

  /** A digest by its algorithm; None for one that is not known. */
  type Digest = (string, string) -> Option<string>

  predicate IsHex(s: string) { s != "" && forall i | 0 <= i < |s| :: IsDigit(s[i]) || 'a' <= s[i] <= 'f' }

  ghost predicate KnowsSha256(digest: Digest) {
    forall text :: digest("sha256", text).Some? && IsHex(digest("sha256", text).value)
  }

  /** Construction strips the contents. */
  function Make(contents: string, grubVersion: string, otaclientVersion: string): Cfg {
    Cfg(Strip(contents), grubVersion, otaclientVersion)
  }

  function Checksum(digest: Digest, c: Cfg): string {
    var sum := digest("sha256", c.contents);
    "sha256:" + if sum.Some? then sum.value else ""
  }

  function FooterLine(key: string, value: string): string { "# " + key + ": " + value }

  function Export(digest: Digest, c: Cfg): string {
    HEADER + Body(digest, c)
  }

  function Body(digest: Digest, c: Cfg): string {
    (c.contents + "\n") + Rest(Checksum(digest, c), c.otaclientVersion, c.grubVersion)
  }

  function Rest(sum: string, ota: string, grub: string): string { FOOTER_HEAD + Rest1(sum, ota, grub) }

  function Rest1(sum: string, ota: string, grub: string): string {
    (FooterLine("otaclient_version", ota) + "\n") + Rest2(sum, grub)
  }

  function Rest2(sum: string, grub: string): string { (FooterLine("grub_version", grub) + "\n") + Rest3(sum) }

  function Rest3(sum: string): string { (FooterLine("checksum", sum) + "\n") + FOOTER_TAIL }

  // ------ reading ------ //

  function LStripHash(s: string): string { if s != "" && s[0] == '#' then LStripHash(s[1..]) else s }

  function KeyValue(line: string): (string, string) {
    var text := Strip(LStripHash(line));
    (Strip(Before(text, ':')), Strip(After(text, ':')))
  }

  /** The dictionary of a footer's lines, None where one is no comment. */
  function Footer(lines: seq<string>): Option<map<string, string>> {
    if lines == [] then Some(map[])
    else
      var front, line := Footer(lines[..|lines| - 1]), lines[|lines| - 1];
      if front.None? || MARK <= line then front
      else
        var text := Strip(line);
        if !("#" <= text) then None
        else
          var (k, v) := KeyValue(text);
          Some(front.value[k := v])
  }

  lemma {:induction false} NoFooterStays(lines: seq<string>, n: nat)
    requires n <= |lines| && Footer(lines[..n]).None?
    ensures Footer(lines).None?
    decreases |lines| - n
  {
    if n < |lines| {
      assert lines[..n + 1][..n] == lines[..n];
      NoFooterStays(lines, n + 1);
    } else {
      assert lines[..n] == lines;
    }
  }

  /** The loop of _parse_footer. */
  method ParseFooter(footer: string) returns (res: Option<map<string, string>>)
    ensures res == Footer(SplitLines(footer))
  {
    var lines, dict := SplitLines(footer), map[];
    assert lines[..0] == [];
    for i := 0 to |lines|
      invariant Footer(lines[..i]) == Some(dict)
    {
      assert lines[..i + 1][..i] == lines[..i];
      var line := lines[i];
      if MARK <= line {
        continue;
      }
      line := Strip(line);
      if !("#" <= line) {
        NoFooterStays(lines, i + 1);
        return None;
      }
      var (k, v) := KeyValue(line);
      dict := dict[k := v];
    }
    assert lines[..|lines|] == lines;
    return Some(dict);
  }

  function Slice(s: string, a: nat, b: nat): string { if a <= b <= |s| then s[a..b] else "" }

  function Get(dict: map<string, string>, k: string): string { if k in dict then dict[k] else "" }

  function Validate(digest: Digest, text: string): Option<Cfg> {
    if HEADER <= text then
      var body := text[|HEADER|..];
      ReadBody(digest, body, Find(body, FOOTER_HEAD), Find(body, FOOTER_TAIL))
    else None
  }

  /** The body, with the places where its markers were found. */
  function ReadBody(digest: Digest, body: string, start: Option<nat>, end: Option<nat>): Option<Cfg> {
    if start.None? || end.None? then None
    else
      match Footer(SplitLines(Slice(body, start.value, end.value + |FOOTER_TAIL|)))
      case None => None
      case Some(dict) => Accept(digest, Slice(body, 0, start.value), dict)
  }

  /** A missing or empty field, a checksum of no known kind, or one of other contents is refused. */
  function Accept(digest: Digest, before: string, dict: map<string, string>): Option<Cfg> {
    var checksum, grub, otaclient := Get(dict, "checksum"), Get(dict, "grub_version"), Get(dict, "otaclient_version");
    if checksum == "" || grub == "" || otaclient == "" then None
    else
      var contents := Strip(before);
      var sum := digest(Before(checksum, ':'), contents);
      if ':' !in checksum || sum.None? || sum.value != After(checksum, ':') then None
      else Some(Make(contents, grub, otaclient))
  }

  // ------ where the markers are found ------ //

  /** A marker line that occurs in two texts put together occurs in one of them, when the first ends a line. */
  lemma {:induction false} OccursInOne(a: string, b: string, t: string, i: nat)
    requires EndsWith(a, "\n") && '\n' !in t
    ensures Occurs(a + b, t + "\n", i) <==> Occurs(a, t + "\n", i) || (i >= |a| && Occurs(b, t + "\n", i - |a|))
  {
    var s, p := a + b, t + "\n";
    if Occurs(s, p, i) {
      forall k | i <= k < i + |t| ensures s[k] != '\n' {
        assert s[k] == s[i..i + |p|][k - i] && p[k - i] == t[k - i];
      }
      assert s[|a| - 1] == a[|a| - 1] == '\n';
      assert i + |p| <= |a| || i >= |a|;
    }
    if i + |p| <= |a| {
      assert s[i..i + |p|] == a[i..i + |p|];
    } else if i >= |a| && i + |p| <= |s| {
      assert s[i..i + |p|] == b[i - |a|..i - |a| + |p|];
    }
  }

  lemma {:induction false} FindInOne(a: string, b: string, t: string)
    requires EndsWith(a, "\n") && '\n' !in t
    ensures var p := t + "\n";
            Find(a + b, p) == if Find(a, p).Some? then Find(a, p)
                              else if Find(b, p).Some? then Some(|a| + Find(b, p).value) else None
  {
    var p := t + "\n";
    forall i: nat ensures Occurs(a + b, p, i) <==> Occurs(a, p, i) || (i >= |a| && Occurs(b, p, i - |a|)) {
      OccursInOne(a, b, t, i);
    }
    if Find(a, p).Some? {
      FindIs(a + b, p, Find(a, p).value);
    } else if Find(b, p).Some? {
      FindIs(a + b, p, |a| + Find(b, p).value);
    }
  }

  lemma {:induction false} FindIs(s: string, p: string, i: nat)
    requires Occurs(s, p, i) && forall j: nat | j < i :: !Occurs(s, p, j)
    ensures Find(s, p) == Some(i)
  {
    assert Contains(s, p);
  }

  lemma {:induction false} OccursAtEnd(x: string, t: string, i: nat)
    requires '\n' !in x && Occurs(x + "\n", t + "\n", i)
    ensures EndsWith(x, t) && i == |x| - |t|
  {
    var s, p := x + "\n", t + "\n";
    assert s[i + |t|] == s[i..i + |p|][|t|] == '\n';
    assert i + |t| == |x|;
    forall k | 0 <= k < |t| ensures x[i..][k] == t[k] {
      assert x[i..][k] == s[i + k] == s[i..i + |p|][k] == p[k];
    }
    assert x[i..] == t;
  }

  lemma {:induction false} EndOccurs(x: string, t: string)
    requires EndsWith(x, t)
    ensures Occurs(x + "\n", t + "\n", |x| - |t|)
  {
    var s, p, i := x + "\n", t + "\n", |x| - |t|;
    assert s[i..i + |p|] == x[i..] + "\n";
  }

  /** In a line the marker is found at its end or not at all. */
  lemma {:induction false} FindInLine(x: string, t: string)
    requires '\n' !in x
    ensures Find(x + "\n", t + "\n") == if EndsWith(x, t) then Some(|x| - |t|) else None
  {
    forall i: nat | Occurs(x + "\n", t + "\n", i) ensures EndsWith(x, t) && i == |x| - |t| {
      OccursAtEnd(x, t, i);
    }
    if EndsWith(x, t) {
      EndOccurs(x, t);
      FindIs(x + "\n", t + "\n", |x| - |t|);
    }
  }

  predicate IsKey(key: string) { key != "" && forall i | 0 <= i < |key| :: 'a' <= key[i] <= 'z' || key[i] == '_' }

  /** A line of the footer says its key and its value. */
  lemma {:induction false} LineIsRead(key: string, value: string)
    requires IsKey(key) && value != "" && Trimmed(value)
    ensures var line := FooterLine(key, value);
            && Strip(line) == line && "#" <= line && !(MARK <= line)
            && KeyValue(line) == (key, value)
  {
    var line := FooterLine(key, value);
    assert line[0] == '#' && line[2] == key[0] && line[|line| - 1] == value[|value| - 1];
    StripTrimmed(line);
    assert MARK[2] == '-';
    var text := key + [':'] + (" " + value);
    assert line[1..] == " " + text + "";
    assert text[0] == key[0] && text[|text| - 1] == value[|value| - 1];
    assert LStripHash(line) == line[1..];
    StripOf(" ", text, "");
    SplitAt(key, ':', " " + value);
    StripTrimmed(key);
    StripOf(" ", value, "");
    assert " " + value + "" == " " + value;
  }

  lemma {:induction false} MarkersOneLine()
    ensures OneLine(TAIL_TEXT) && OneLine(HEAD_TEXT)
  {
    assert OneLine(MARK) && OneLine(" End of");
    assert OneLine(MANAGED);
    assert OneLine(METADATA) && OneLine(KRAM);
  }

  lemma {:induction false} Markers()
    ensures |TAIL_TEXT| > |HEAD_TEXT| > 2 && TAIL_TEXT[0] == '#' && TAIL_TEXT[2] == '-'
    ensures TAIL_TEXT[|TAIL_TEXT| - 1] == '#'
    ensures MARK <= TAIL_TEXT && MARK <= HEAD_TEXT
  {
    assert MARK[0] == '#' && MARK[2] == '-' && KRAM[|KRAM| - 1] == '#';
  }

  /** A line ends with text that starts as a marker does only if its value does. */
  lemma {:induction false} LineEnds(key: string, value: string, t: string)
    requires IsKey(key) && |t| > 2 && t[0] == '#' && t[2] == '-'
    ensures EndsWith(FooterLine(key, value), t) <==> EndsWith(value, t)
  {
    var line, head := FooterLine(key, value), "# " + key + ": ";
    assert line == head + value;
    if |value| >= |t| {
      assert line[|line| - |t|..] == value[|value| - |t|..];
    } else if |line| >= |t| {
      var o := |line| - |t|;
      assert line[o] == head[o] && (o > 0 ==> head[o] != '#') && line[2] == key[0];
      assert line[o..][0] == line[o] && line[o..][2] == line[o + 2];
    }
  }

  // ------ the footer that is printed ------ //

  lemma {:induction false} HeadIsFound(before: string, sum: string, ota: string, grub: string)
    ensures var at := Find((before + "\n") + Rest(sum, ota, grub), FOOTER_HEAD);
            && at.Some?
            && (Contains(before + "\n", FOOTER_HEAD) ==> at.value < |before|)
            && (!Contains(before + "\n", FOOTER_HEAD) ==> at.value == |before| + 1)
  {
    var a, rest := before + "\n", Rest(sum, ota, grub);
    FindInOne(a, rest, HEAD_TEXT);
    assert rest[0..|FOOTER_HEAD|] == FOOTER_HEAD;
    FindIs(rest, FOOTER_HEAD, 0);
    if Contains(a, FOOTER_HEAD) {
      assert Find(a, FOOTER_HEAD).Some?;
      assert |FOOTER_HEAD| > 1;
    }
  }

  /** One line of the footer more in front: a marker is found in it, or behind it. */
  lemma {:induction false} FoundBehind(key: string, value: string, rest: string, t: string)
    requires IsKey(key) && OneLine(key) && OneLine(value) && Find(rest, t + "\n").Some?
    requires OneLine(t) && |t| > 2 && t[0] == '#' && t[2] == '-'
    ensures var line := FooterLine(key, value) + "\n";
            Find(line + rest, t + "\n") ==
            Some(if EndsWith(value, t) then |line| - |t| - 1 else |line| + Find(rest, t + "\n").value)
  {
    var line := FooterLine(key, value);
    LineEnds(key, value, t);
    FooterLineOneLine(key, value);
    FindInLine(line, t);
    assert (line + "\n")[|line|..] == "\n";
    FindInOne(line + "\n", rest, t);
  }

  lemma {:induction false} FooterLineOneLine(key: string, value: string)
    requires OneLine(key) && OneLine(value)
    ensures OneLine(FooterLine(key, value))
  {
    assert OneLine("# ") && OneLine(": ");
  }

  lemma {:induction false} Keys()
    ensures IsKey("otaclient_version") && IsKey("grub_version") && IsKey("checksum")
    ensures OneLine("otaclient_version") && OneLine("grub_version") && OneLine("checksum")
  {}

  /** Where the closing marker ends that is found first. */
  function FooterEnd(sum: string, ota: string, grub: string): nat {
    if EndsWith(ota, TAIL_TEXT) then |FOOTER_HEAD| + |FooterLine("otaclient_version", ota)| + 1
    else if EndsWith(grub, TAIL_TEXT) then
      |FOOTER_HEAD| + |FooterLine("otaclient_version", ota)| + 1 + |FooterLine("grub_version", grub)| + 1
    else |Rest(sum, ota, grub)|
  }

  lemma {:induction false} TailIsFound(sum: string, ota: string, grub: string)
    requires OneLine(sum) && OneLine(ota) && OneLine(grub) && !EndsWith(sum, TAIL_TEXT)
    ensures var at := Find(Rest(sum, ota, grub), FOOTER_TAIL);
            at.Some? && at.value + |FOOTER_TAIL| == FooterEnd(sum, ota, grub)
  {
    Keys();
    Markers();
    MarkersOneLine();
    assert FOOTER_TAIL[0..|FOOTER_TAIL|] == FOOTER_TAIL;
    FindIs(FOOTER_TAIL, FOOTER_TAIL, 0);
    FoundBehind("checksum", sum, FOOTER_TAIL, TAIL_TEXT);
    FoundBehind("grub_version", grub, Rest3(sum), TAIL_TEXT);
    FoundBehind("otaclient_version", ota, Rest2(sum, grub), TAIL_TEXT);
    FindInLine(HEAD_TEXT, TAIL_TEXT);
    assert FOOTER_HEAD[|HEAD_TEXT|..] == "\n";
    FindInOne(FOOTER_HEAD, Rest1(sum, ota, grub), TAIL_TEXT);
  }

  // ------ the dictionary of the footer ------ //

  lemma {:induction false} MarkAdds(lines: seq<string>, mark: string)
    requires MARK <= mark
    ensures Footer(lines + [mark]) == Footer(lines)
  {
    assert (lines + [mark])[..|lines|] == lines;
  }

  lemma {:induction false} LineAdds(lines: seq<string>, dict: map<string, string>, key: string, value: string)
    requires Footer(lines) == Some(dict) && IsKey(key) && value != "" && Trimmed(value)
    ensures Footer(lines + [FooterLine(key, value)]) == Some(dict[key := value])
  {
    LineIsRead(key, value);
    assert (lines + [FooterLine(key, value)])[..|lines|] == lines;
  }

  /** The dictionary after the first one, two or three lines. */
  function Dict(n: nat, sum: string, ota: string, grub: string): map<string, string> {
    if n == 0 then map[]
    else if n == 1 then map["otaclient_version" := ota]
    else if n == 2 then map["otaclient_version" := ota, "grub_version" := grub]
    else map["otaclient_version" := ota, "grub_version" := grub, "checksum" := sum]
  }

  function Lines(n: nat, sum: string, ota: string, grub: string): seq<string> {
    if n == 0 then [HEAD_TEXT]
    else if n == 1 then [HEAD_TEXT] + [FooterLine("otaclient_version", ota)]
    else if n == 2 then [HEAD_TEXT] + [FooterLine("otaclient_version", ota)] + [FooterLine("grub_version", grub)]
    else
      [HEAD_TEXT] + [FooterLine("otaclient_version", ota)]
      + [FooterLine("grub_version", grub)] + [FooterLine("checksum", sum)]
  }

  predicate Plain(s: string) { s != "" && Trimmed(s) && OneLine(s) }

  lemma {:induction false} DictIs(n: nat, sum: string, ota: string, grub: string)
    requires n <= 3 && Plain(sum) && Plain(ota) && Plain(grub)
    ensures Footer(Lines(n, sum, ota, grub)) == Some(Dict(n, sum, ota, grub))
  {
    Keys();
    Markers();
    assert [] + [HEAD_TEXT] == [HEAD_TEXT];
    MarkAdds([], HEAD_TEXT);
    assert Footer([]) == Some(map[]);
    LineAdds(Lines(0, sum, ota, grub), Dict(0, sum, ota, grub), "otaclient_version", ota);
    LineAdds(Lines(1, sum, ota, grub), Dict(1, sum, ota, grub), "grub_version", grub);
    LineAdds(Lines(2, sum, ota, grub), Dict(2, sum, ota, grub), "checksum", sum);
  }

  // ------ the text of the footer, cut where the marker is found ------ //

  function FooterText(n: nat, sum: string, ota: string, grub: string): string {
    if n == 1 then FOOTER_HEAD + (FooterLine("otaclient_version", ota) + "\n")
    else if n == 2 then
      FOOTER_HEAD + ((FooterLine("otaclient_version", ota) + "\n") + (FooterLine("grub_version", grub) + "\n"))
    else Rest(sum, ota, grub)
  }

  lemma {:induction false} LastLine(line: string)
    requires OneLine(line)
    ensures SplitLines(line + "\n") == [line]
  {
    SplitLine(line, "");
    assert line + "\n" + "" == line + "\n";
  }

  lemma {:induction false} NextLine(line: string, rest: string)
    requires OneLine(line)
    ensures SplitLines((line + "\n") + rest) == [line] + SplitLines(rest)
  {
    SplitLine(line, rest);
  }

  lemma {:induction false} TwoLines(a: string, b: string)
    requires OneLine(a) && OneLine(b)
    ensures SplitLines((a + "\n") + (b + "\n")) == [a] + [b]
  {
    LastLine(b);
    NextLine(a, b + "\n");
  }

  lemma {:induction false} ThreeLines(a: string, b: string, c: string)
    requires OneLine(a) && OneLine(b) && OneLine(c)
    ensures SplitLines((a + "\n") + ((b + "\n") + (c + "\n"))) == [a] + [b] + [c]
  {
    TwoLines(b, c);
    NextLine(a, (b + "\n") + (c + "\n"));
    assert [a] + ([b] + [c]) == [a] + [b] + [c];
  }

  lemma {:induction false} Regroup<T>(a: T, b: T, c: T, d: T, e: T)
    ensures [a] + ([b] + ([c] + [d] + [e])) == ([a] + [b] + [c] + [d]) + [e]
  {}

  lemma {:induction false} FiveLines(a: string, b: string, c: string, d: string, e: string)
    requires OneLine(a) && OneLine(b) && OneLine(c) && OneLine(d) && OneLine(e)
    ensures SplitLines((a + "\n") + ((b + "\n") + ((c + "\n") + ((d + "\n") + (e + "\n"))))) ==
        ([a] + [b] + [c] + [d]) + [e]
  {
    ThreeLines(c, d, e);
    var rest := (c + "\n") + ((d + "\n") + (e + "\n"));
    NextLine(b, rest);
    NextLine(a, (b + "\n") + rest);
    Regroup(a, b, c, d, e);
  }

  lemma {:induction false} TextLines(n: nat, sum: string, ota: string, grub: string)
    requires 1 <= n <= 3 && OneLine(sum) && OneLine(ota) && OneLine(grub)
    ensures SplitLines(FooterText(n, sum, ota, grub)) == Lines(n, sum, ota, grub) + if n == 3 then [TAIL_TEXT] else []
  {
    Keys();
    MarkersOneLine();
    var l1, l2 := FooterLine("otaclient_version", ota), FooterLine("grub_version", grub);
    var l3 := FooterLine("checksum", sum);
    FooterLineOneLine("otaclient_version", ota);
    FooterLineOneLine("grub_version", grub);
    FooterLineOneLine("checksum", sum);
    if n == 1 {
      TwoLines(HEAD_TEXT, l1);
    } else if n == 2 {
      ThreeLines(HEAD_TEXT, l1, l2);
    } else {
      FiveLines(HEAD_TEXT, l1, l2, l3, TAIL_TEXT);
    }
  }

  lemma {:induction false} FooterOfText(n: nat, sum: string, ota: string, grub: string)
    requires 1 <= n <= 3 && Plain(sum) && Plain(ota) && Plain(grub)
    ensures Footer(SplitLines(FooterText(n, sum, ota, grub))) == Some(Dict(n, sum, ota, grub))
  {
    TextLines(n, sum, ota, grub);
    DictIs(n, sum, ota, grub);
    Markers();
    MarkAdds(Lines(n, sum, ota, grub), TAIL_TEXT);
    assert Lines(n, sum, ota, grub) + [] == Lines(n, sum, ota, grub);
  }

  function Cut(ota: string, grub: string): nat {
    if EndsWith(ota, TAIL_TEXT) then 1 else if EndsWith(grub, TAIL_TEXT) then 2 else 3
  }

  lemma {:induction false} CutIs(sum: string, ota: string, grub: string)
    ensures FooterEnd(sum, ota, grub) <= |Rest(sum, ota, grub)|
    ensures Rest(sum, ota, grub)[..FooterEnd(sum, ota, grub)] == FooterText(Cut(ota, grub), sum, ota, grub)
  {
    var rest := Rest(sum, ota, grub);
    var l1, l2 := FooterLine("otaclient_version", ota) + "\n", FooterLine("grub_version", grub) + "\n";
    assert rest == (FOOTER_HEAD + l1) + Rest2(sum, grub);
    assert rest == (FOOTER_HEAD + (l1 + l2)) + Rest3(sum);
  }

  // ------ the round trip ------ //

  predicate GoodVersion(v: string) { Plain(v) && !EndsWith(v, TAIL_TEXT) }

  ghost predicate GoodContents(contents: string) {
    !Contains(contents + "\n", FOOTER_HEAD) && !Contains(contents + "\n", FOOTER_TAIL)
  }

  lemma {:induction false} ChecksumIsPlain(digest: Digest, c: Cfg)
    requires KnowsSha256(digest)
    ensures var sum := Checksum(digest, c);
            && Plain(sum) && !EndsWith(sum, TAIL_TEXT) && ':' in sum
            && Before(sum, ':') == "sha256" && Some(After(sum, ':')) == digest("sha256", c.contents)
  {
    var sum, hex := Checksum(digest, c), digest("sha256", c.contents).value;
    Markers();
    assert IsHex(hex);
    assert sum == "sha256" + [':'] + hex;
    assert sum[6] == ':';
    SplitAt("sha256", ':', hex);
    assert sum[0] == 's' && sum[|sum| - 1] == hex[|hex| - 1];
    assert OneLine("sha256") && OneLine(":");
    assert |sum| >= |TAIL_TEXT| ==> sum[|sum| - |TAIL_TEXT|..][|TAIL_TEXT| - 1] == sum[|sum| - 1];
  }

  /** Reading an exported text is reading its body where the markers are found. */
  lemma {:induction false} ExportIsRead(digest: Digest, c: Cfg)
    ensures var body := Body(digest, c);
            Validate(digest, Export(digest, c)) ==
                ReadBody(digest, body, Find(body, FOOTER_HEAD), Find(body, FOOTER_TAIL))
  {
    assert HEADER <= Export(digest, c) && Export(digest, c)[|HEADER|..] == Body(digest, c);
  }

  lemma {:induction false} MarkersAreFound(contents: string, sum: string, ota: string, grub: string)
    requires GoodContents(contents) && OneLine(sum) && OneLine(ota) && OneLine(grub) && !EndsWith(sum, TAIL_TEXT)
    ensures var a, rest := contents + "\n", Rest(sum, ota, grub);
            && Find(a + rest, FOOTER_HEAD) == Some(|a|)
            && Find(a + rest, FOOTER_TAIL).Some?
            && Find(a + rest, FOOTER_TAIL).value + |FOOTER_TAIL| == |a| + FooterEnd(sum, ota, grub)
  {
    var a, rest := contents + "\n", Rest(sum, ota, grub);
    HeadIsFound(contents, sum, ota, grub);
    TailIsFound(sum, ota, grub);
    MarkersOneLine();
    FindInOne(a, rest, TAIL_TEXT);
    assert Find(a, FOOTER_TAIL).None?;
  }

  lemma {:induction false} Slices(a: string, rest: string, end: nat)
    requires end <= |rest|
    ensures Slice(a + rest, |a|, |a| + end) == rest[..end] && Slice(a + rest, 0, |a|) == a
  {}

  lemma {:induction false} BodyIsRead(
      digest: Digest, a: string, rest: string, end: nat, length: nat, dict: map<string, string>)
    requires end + |FOOTER_TAIL| == |a| + length && length <= |rest| && Footer(SplitLines(rest[..length])) == Some(dict)
    ensures ReadBody(digest, a + rest, Some(|a|), Some(end)) == Accept(digest, a, dict)
  {
    Slices(a, rest, length);
  }

  /** Where the contents hold no marker, what is read is the text before the footer and the dictionary of its lines. */
  lemma {:induction false} FooterIsRead(digest: Digest, c: Cfg)
    requires KnowsSha256(digest) && GoodContents(c.contents) && Plain(c.grubVersion) && Plain(c.otaclientVersion)
    ensures var sum := Checksum(digest, c);
            Validate(digest, Export(digest, c)) ==
            Accept(digest, c.contents + "\n",
                Dict(Cut(c.otaclientVersion, c.grubVersion), sum, c.otaclientVersion, c.grubVersion))
  {
    ExportIsRead(digest, c);
    ChecksumIsPlain(digest, c);
    RestIsRead(digest, c.contents, Checksum(digest, c), c.otaclientVersion, c.grubVersion);
  }

  lemma {:induction false} RestIsRead(digest: Digest, contents: string, sum: string, ota: string, grub: string)
    requires GoodContents(contents) && Plain(sum) && Plain(ota) && Plain(grub) && !EndsWith(sum, TAIL_TEXT)
    ensures var body := (contents + "\n") + Rest(sum, ota, grub);
            ReadBody(digest, body, Find(body, FOOTER_HEAD), Find(body, FOOTER_TAIL)) ==
            Accept(digest, contents + "\n", Dict(Cut(ota, grub), sum, ota, grub))
  {
    var a, rest, n := contents + "\n", Rest(sum, ota, grub), Cut(ota, grub);
    MarkersAreFound(contents, sum, ota, grub);
    CutIs(sum, ota, grub);
    FooterOfText(n, sum, ota, grub);
    BodyIsRead(digest, a, rest, Find(a + rest, FOOTER_TAIL).value, FooterEnd(sum, ota, grub), Dict(n, sum, ota, grub));
  }

  lemma {:induction false} Accepted(digest: Digest, c: Cfg)
    requires KnowsSha256(digest) && Trimmed(c.contents) && Plain(c.grubVersion) && Plain(c.otaclientVersion)
    ensures forall n | 1 <= n <= 3 ::
              Accept(digest, c.contents + "\n", Dict(n, Checksum(digest, c), c.otaclientVersion, c.grubVersion))
              == if n == 3 then Some(c) else None
  {
    ChecksumIsPlain(digest, c);
    StripOf("", c.contents, "\n");
    assert "" + c.contents + "\n" == c.contents + "\n";
    StripTrimmed(c.contents);
  }

  // ------ the other way: what comes back bounds what was printed ------ //

  lemma {:induction false} StripKeepsLine(s: string)
    ensures Trimmed(Strip(s)) && |Strip(s)| <= |s| && (OneLine(s) ==> OneLine(Strip(s)))
  {
    var a, b := StripParts(s);
    assert forall i | 0 <= i < |Strip(s)| :: Strip(s)[i] == s[|a| + i];
  }

  lemma {:induction false} LStripHashKeepsLine(s: string)
    ensures OneLine(s) ==> OneLine(LStripHash(s))
  {
    if s != "" && s[0] == '#' { LStripHashKeepsLine(s[1..]); }
  }

  lemma {:induction false} ValueIsTrimmed(line: string)
    requires OneLine(line)
    ensures Trimmed(KeyValue(line).1) && OneLine(KeyValue(line).1)
  {
    var text := Strip(LStripHash(line));
    LStripHashKeepsLine(line);
    StripKeepsLine(LStripHash(line));
    StripKeepsLine(After(text, ':'));
  }

  ghost predicate ValuesTrimmed(dict: map<string, string>) {
    forall k | k in dict :: Trimmed(dict[k]) && OneLine(dict[k])
  }

  lemma {:induction false} FooterValues(lines: seq<string>)
    requires forall i | 0 <= i < |lines| :: OneLine(lines[i])
    ensures Footer(lines).Some? ==> ValuesTrimmed(Footer(lines).value)
  {
    if lines != [] {
      var line := lines[|lines| - 1];
      FooterValues(lines[..|lines| - 1]);
      StripKeepsLine(line);
      ValueIsTrimmed(Strip(line));
    }
  }

  lemma {:induction false} AcceptIsPlain(digest: Digest, before: string, dict: map<string, string>)
    requires ValuesTrimmed(dict) && Accept(digest, before, dict).Some?
    ensures var c := Accept(digest, before, dict).value;
            Plain(c.grubVersion) && Plain(c.otaclientVersion) && |c.contents| <= |before|
  {
    StripKeepsLine(before);
    StripKeepsLine(Strip(before));
  }

  /** A version that was read is not empty, trimmed and of one line; and the contents lie before the footer. */
  lemma {:induction false} ReadIsPlain(digest: Digest, body: string, start: Option<nat>, end: Option<nat>)
    requires ReadBody(digest, body, start, end).Some?
    ensures var c := ReadBody(digest, body, start, end).value;
            Plain(c.grubVersion) && Plain(c.otaclientVersion) && start.Some? && |c.contents| <= start.value
  {
    var lines := SplitLines(Slice(body, start.value, end.value + |FOOTER_TAIL|));
    LinesAreOneLine(Slice(body, start.value, end.value + |FOOTER_TAIL|));
    FooterValues(lines);
    AcceptIsPlain(digest, Slice(body, 0, start.value), Footer(lines).value);
  }

  /** A footer that ends before it begins says nothing. */
  lemma {:induction false} EmptyFooter(digest: Digest, body: string, start: nat, end: nat)
    requires end + |FOOTER_TAIL| <= start
    ensures ReadBody(digest, body, Some(start), Some(end)).None?
  {
    assert Slice(body, start, end + |FOOTER_TAIL|) == "";
    assert SplitLines("") == [];
  }

  lemma {:induction false} OnlyGoodContents(digest: Digest, c: Cfg)
    requires Validate(digest, Export(digest, c)) == Some(c)
    ensures GoodContents(c.contents)
  {
    var sum, ota, grub, a := Checksum(digest, c), c.otaclientVersion, c.grubVersion, c.contents + "\n";
    var body := Body(digest, c);
    var start, end := Find(body, FOOTER_HEAD), Find(body, FOOTER_TAIL);
    ExportIsRead(digest, c);
    ReadIsPlain(digest, body, start, end);
    HeadIsFound(c.contents, sum, ota, grub);
    MarkersOneLine();
    FindInOne(a, Rest(sum, ota, grub), TAIL_TEXT);
    if Contains(a, FOOTER_TAIL) {
      assert end == Find(a, FOOTER_TAIL);
      EmptyFooter(digest, body, start.value, end.value);
    }
  }

  /**
   * An exported configuration is recognised as what it was if and only if its contents hold no
   * marker line and its versions are not empty, trimmed, of one line and do not end like the
   * closing marker.
   */
  lemma {:induction false} RoundTripIff(digest: Digest, c: Cfg)
    requires KnowsSha256(digest) && Trimmed(c.contents)
    ensures Validate(digest, Export(digest, c)) == Some(c) <==>
            GoodContents(c.contents) && GoodVersion(c.grubVersion) && GoodVersion(c.otaclientVersion)
  {
    if Validate(digest, Export(digest, c)) == Some(c) {
      OnlyGoodContents(digest, c);
      ExportIsRead(digest, c);
      ReadIsPlain(digest, Body(digest, c), Find(Body(digest, c), FOOTER_HEAD), Find(Body(digest, c), FOOTER_TAIL));
    }
    if GoodContents(c.contents) && Plain(c.grubVersion) && Plain(c.otaclientVersion) {
      FooterIsRead(digest, c);
      Accepted(digest, c);
    }
  }

  /** The versions being trimmed lines is not enough: one that ends like the closing marker loses the file. */
  lemma {:induction false} VersionCanCloseTheFooter(digest: Digest)
    requires KnowsSha256(digest)
    ensures var c := Cfg("menuentry", "2.06", "v " + TAIL_TEXT);
            GoodContents(c.contents) && Plain(c.grubVersion) && Plain(c.otaclientVersion)
            && Validate(digest, Export(digest, c)).None?
  {
    var c := Cfg("menuentry", "2.06", "v " + TAIL_TEXT);
    Markers();
    MarkersOneLine();
    assert OneLine("v ") && OneLine("2.06");
    assert c.otaclientVersion[2..] == TAIL_TEXT;
    assert c.otaclientVersion[|c.otaclientVersion| - 1] == TAIL_TEXT[|TAIL_TEXT| - 1];
    forall i: nat ensures !Occurs("menuentry" + "\n", FOOTER_HEAD, i) && !Occurs("menuentry" + "\n", FOOTER_TAIL, i) {
      assert |FOOTER_HEAD| > 10 && |FOOTER_TAIL| > 10;
    }
    FooterIsRead(digest, c);
    Accepted(digest, c);
  }
}
