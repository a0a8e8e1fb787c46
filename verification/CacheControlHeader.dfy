/**
 * The header ota-file-cache-control (src/ota_proxy/cache_control_header.py): directives and
 * directive=value pairs, separated by commas.
 */
module CacheControlHeader {
  import opened Prelude
  import opened Text
  import opened OrderedDict

  /** What a directive is set to: nothing that counts (False, None), a flag, or a text. */
  datatype Value = Nothing | Flag | Str(text: string)

  type Directives = seq<(string, Value)>

  predicate Valid(k: string) {
    k == "no_cache" || k == "retry_caching" || k == "file_sha256" || k == "file_compression_alg"
  }

  predicate Truthy(v: Value) { v.Flag? || (v.Str? && v.text != "") }

  // ------ reading ------ //

  /** str.split: the parts between the commas. */
  function Split(s: string): (parts: seq<string>)
    ensures parts != []
    decreases |s|
  {
    if IndexOf(s, ',') == |s| then [s] else [Before(s, ',')] + Split(After(s, ','))
  }

  /** What a part sets, if it is a directive known. */
  function ReadPart(part: string): Option<(string, Value)> {
    var text := Strip(part);
    var k := Before(text, '=');
    if !Valid(k) then None else Some((k, if '=' in text then Str(After(text, '=')) else Flag))
  }

  function ReadParts(parts: seq<string>): Directives {
    if parts == [] then []
    else
      var front := ReadParts(parts[..|parts| - 1]);
      match ReadPart(parts[|parts| - 1])
      case None => front
      case Some((k, v)) => Put(front, k, v)
  }

  function Read(header: string): Directives { if header == "" then [] else ReadParts(Split(Strip(header))) }

  // ------ printing ------ //

  function PrintPart(p: (string, Value)): string { if p.1.Str? then p.0 + "=" + p.1.text else p.0 }

  /** The pairs that are printed. */
  function Kept(dict: Directives): Directives {
    if dict == [] then []
    else if Valid(dict[0].0) && Truthy(dict[0].1) then [dict[0]] + Kept(dict[1..])
    else Kept(dict[1..])
  }

  /** Each part with a comma behind it. */
  function Buffer(dict: Directives): string {
    if dict == [] then "" else PrintPart(dict[0]) + "," + Buffer(dict[1..])
  }

  function LStripCommas(s: string): string { if s != "" && s[0] == ',' then LStripCommas(s[1..]) else s }

  function RStripCommas(s: string): string { if s != "" && s[|s| - 1] == ',' then RStripCommas(s[..|s| - 1]) else s }

  function Export(dict: Directives): string { RStripCommas(LStripCommas(Buffer(Kept(dict)))) }

  function UpdateHeader(header: string, updates: Directives): string {
    if updates == [] then header else Export(PutAll(Read(header), updates))
  }

  // ------ the loops ------ //

  method ParseHeader(header: string) returns (res: Directives)
    ensures res == Read(header)
  {
    if header == "" {
      return [];
    }
    res := [];
    var parts := Split(Strip(header));
    assert parts[..0] == [];
    for i := 0 to |parts|
      invariant res == ReadParts(parts[..i])
    {
      assert parts[..i + 1][..i] == parts[..i];
      var text := Strip(parts[i]);
      var k := Before(text, '=');
      if !Valid(k) {
        continue;
      }
      res := Put(res, k, if '=' in text then Str(After(text, '=')) else Flag);
    }
    assert parts[..|parts|] == parts;
  }

  method ExportHeader(dict: Directives) returns (res: string)
    ensures res == Export(dict)
  {
    var buffer := "";
    assert dict[0..] == dict;
    for i := 0 to |dict|
      invariant buffer + Buffer(Kept(dict[i..])) == Buffer(Kept(dict))
    {
      BufferStep(dict, i, buffer);
      var (k, v) := dict[i];
      if !Valid(k) || !Truthy(v) {
        continue;
      }
      buffer := buffer + (PrintPart((k, v)) + ",");
    }
    assert dict[|dict|..] == [];
    assert buffer + "" == buffer;
    return RStripCommas(LStripCommas(buffer));
  }

  lemma {:induction false} BufferStep(dict: Directives, i: nat, buffer: string)
    requires i < |dict|
    ensures var p := dict[i]; var rest := Buffer(Kept(dict[i + 1..]));
            buffer + Buffer(Kept(dict[i..])) ==
            if Valid(p.0) && Truthy(p.1) then buffer + (PrintPart(p) + ",") + rest else buffer + rest
  {
    assert dict[i..][1..] == dict[i + 1..];
    var rest := Kept(dict[i + 1..]);
    assert ([dict[i]] + rest)[1..] == rest;
  }

  // ------ what can be printed and read again ------ //

  /** Text that ends a part as it began: no comma, no space at its end. */
  predicate Clean(v: Value) { v.Str? && v.text != "" ==> ',' !in v.text && !IsSpace(v.text[|v.text| - 1]) }

  predicate Printable(p: (string, Value)) { Valid(p.0) && Truthy(p.1) && Clean(p.1) }

  predicate IsName(s: string) {
    s != "" && forall i | 0 <= i < |s| :: 'a' <= s[i] <= 'z' || s[i] == '_' || IsDigit(s[i])
  }

  lemma {:induction false} Names1() ensures IsName("no_cache") && IsName("retry_caching") {}

  lemma {:induction false} Names2() ensures IsName("file_sha256") {}

  lemma {:induction false} Names3() ensures IsName("file_compression_alg") {}

  lemma {:induction false} NameIsPlain(k: string)
    requires IsName(k)
    ensures ',' !in k && '=' !in k && Trimmed(k)
  {}

  lemma {:induction false} ValidIsName(k: string)
    requires Valid(k)
    ensures IsName(k) && ',' !in k && '=' !in k && Trimmed(k)
  {
    Names1();
    Names2();
    Names3();
    NameIsPlain(k);
  }

  lemma {:induction false} PartIsRead(p: (string, Value))
    requires Printable(p)
    ensures ReadPart(PrintPart(p)) == Some(p)
    ensures var part := PrintPart(p); part != "" && ',' !in part && Trimmed(part)
  {
    ValidIsName(p.0);
    var part := PrintPart(p);
    assert part[0] == p.0[0];
    if p.1.Str? {
      assert part == p.0 + ['='] + p.1.text && part[|p.0|] == '=';
      assert part[|part| - 1] == p.1.text[|p.1.text| - 1];
      SplitAt(p.0, '=', p.1.text);
    } else {
      assert IndexOf(part, '=') == |part|;
    }
    StripTrimmed(part);
  }

  predicate AllPrintable(dict: Directives) { forall i | 0 <= i < |dict| :: Printable(dict[i]) }

  function Parts(dict: Directives): seq<string> { seq(|dict|, i requires 0 <= i < |dict| => PrintPart(dict[i])) }

  function Join(parts: seq<string>): string {
    if parts == [] then "" else if |parts| == 1 then parts[0] else parts[0] + "," + Join(parts[1..])
  }

  lemma {:induction false} SplitJoin(parts: seq<string>)
    requires parts != [] && forall i | 0 <= i < |parts| :: ',' !in parts[i]
    ensures Split(Join(parts)) == parts
  {
    if |parts| == 1 {
      assert IndexOf(parts[0], ',') == |parts[0]|;
      assert parts == [parts[0]];
    } else {
      SplitJoin(parts[1..]);
      SplitAt(parts[0], ',', Join(parts[1..]));
      assert Join(parts) == parts[0] + [','] + Join(parts[1..]);
      assert Join(parts)[|parts[0]|] == ',';
      assert parts == [parts[0]] + parts[1..];
    }
  }

  lemma {:induction false} BufferIsJoin(dict: Directives)
    requires dict != []
    ensures Buffer(dict) == Join(Parts(dict)) + ","
  {
    if |dict| == 1 {
      assert Buffer(dict[1..]) == "";
    } else {
      BufferIsJoin(dict[1..]);
      assert Parts(dict)[1..] == Parts(dict[1..]);
    }
  }

  lemma {:induction false} JoinEnds(parts: seq<string>)
    requires parts != [] && forall i | 0 <= i < |parts| :: parts[i] != ""
    ensures Join(parts) != "" && Join(parts)[0] == parts[0][0]
    ensures var last := parts[|parts| - 1]; Join(parts)[|Join(parts)| - 1] == last[|last| - 1]
  {
    if |parts| > 1 { JoinEnds(parts[1..]); }
  }

  lemma {:induction false} ReadPartsAppend(parts: seq<string>, part: string)
    ensures ReadParts(parts + [part]) ==
            match ReadPart(part) case None => ReadParts(parts) case Some((k, v)) => Put(ReadParts(parts), k, v)
  {
    assert (parts + [part])[..|parts|] == parts;
  }

  lemma {:induction false} PartsAppend(dict: Directives, n: nat)
    requires n < |dict|
    ensures Parts(dict[..n + 1]) == Parts(dict[..n]) + [PrintPart(dict[n])]
  {}

  lemma {:induction false} OnePartMore(parts: seq<string>, front: Directives, p: (string, Value))
    requires ReadParts(parts) == front && Printable(p) && Lookup(front, p.0).None?
    ensures ReadParts(parts + [PrintPart(p)]) == front + [p]
  {
    PartIsRead(p);
    PutNew(front, p.0, p.1);
    ReadPartsAppend(parts, PrintPart(p));
  }

  lemma {:induction false} PartsAreRead(dict: Directives, n: nat)
    requires AllPrintable(dict) && Distinct(dict) && n <= |dict|
    ensures ReadParts(Parts(dict[..n])) == dict[..n]
  {
    if n == 0 {
      assert Parts(dict[..0]) == [];
    } else {
      PartsAreRead(dict, n - 1);
      DistinctAt(dict, n - 1);
      PartsAppend(dict, n - 1);
      OnePartMore(Parts(dict[..n - 1]), dict[..n - 1], dict[n - 1]);
      TakeOneMore(dict, n - 1);
    }
  }

  predicate GoodPart(part: string) { part != "" && ',' !in part && Trimmed(part) }

  lemma {:induction false} PartsAreGood(dict: Directives)
    requires AllPrintable(dict)
    ensures forall i | 0 <= i < |dict| :: GoodPart(Parts(dict)[i])
  {
    forall i | 0 <= i < |dict| ensures GoodPart(Parts(dict)[i]) {
      PartIsRead(dict[i]);
    }
  }

  lemma {:induction false} JoinIsGood(parts: seq<string>)
    requires parts != [] && forall i | 0 <= i < |parts| :: GoodPart(parts[i])
    ensures var text := Join(parts); text != "" && text[0] != ',' && text[|text| - 1] != ',' && Trimmed(text)
    ensures Split(Join(parts)) == parts
  {
    JoinEnds(parts);
    SplitJoin(parts);
    var last := parts[|parts| - 1];
    assert last[|last| - 1] in last && parts[0][0] in parts[0];
  }

  lemma {:induction false} StripOneComma(s: string)
    requires s != "" && s[0] != ',' && s[|s| - 1] != ','
    ensures RStripCommas(LStripCommas(s + ",")) == s
  {
    var t := s + ",";
    assert LStripCommas(t) == t;
    assert t[..|t| - 1] == s;
  }

  /** Printing printable directives and reading them gives them back, in their order. */
  lemma {:induction false} PrintIsRead(dict: Directives)
    requires AllPrintable(dict) && Distinct(dict)
    ensures Read(RStripCommas(LStripCommas(Buffer(dict)))) == dict
  {
    if dict != [] {
      var parts := Parts(dict);
      PartsAreGood(dict);
      JoinIsGood(parts);
      BufferIsJoin(dict);
      StripOneComma(Join(parts));
      StripTrimmed(Join(parts));
      PartsAreRead(dict, |dict|);
      assert dict[..|dict|] == dict;
    }
  }

  // ------ what is kept ------ //

  lemma {:induction false} KeptAt(dict: Directives, q: string)
    requires Distinct(dict)
    ensures Distinct(Kept(dict))
    ensures Lookup(Kept(dict), q) ==
            if Valid(q) && Lookup(dict, q).Some? && Truthy(Lookup(dict, q).value) then Lookup(dict, q) else None
  {
    if dict != [] {
      KeptAt(dict[1..], q);
      KeptAt(dict[1..], dict[0].0);
      assert ([dict[0]] + Kept(dict[1..]))[1..] == Kept(dict[1..]);
    }
  }

  lemma {:induction false} KeptPrintable(dict: Directives)
    requires forall i | 0 <= i < |dict| :: Clean(dict[i].1)
    ensures AllPrintable(Kept(dict))
  {
    if dict != [] { KeptPrintable(dict[1..]); }
  }

  /** Every text read is clean. */
  predicate AllClean(dict: Directives) { forall i | 0 <= i < |dict| :: Clean(dict[i].1) }

  lemma {:induction false} PutAllClean(dict: Directives, k: string, v: Value)
    requires AllClean(dict) && Clean(v)
    ensures AllClean(Put(dict, k, v))
  {
    if dict != [] && dict[0].0 != k {
      PutAllClean(dict[1..], k, v);
    }
  }

  lemma {:induction false} UpdatesClean(dict: Directives, updates: Directives)
    requires AllClean(dict) && AllClean(updates)
    ensures AllClean(PutAll(dict, updates))
    decreases |updates|
  {
    if updates != [] {
      PutAllClean(dict, updates[0].0, updates[0].1);
      UpdatesClean(Put(dict, updates[0].0, updates[0].1), updates[1..]);
    }
  }

  lemma {:induction false} SplitIsClean(s: string)
    ensures forall i | 0 <= i < |Split(s)| :: ',' !in Split(s)[i]
    decreases |s|
  {
    if IndexOf(s, ',') < |s| { SplitIsClean(After(s, ',')); }
  }

  lemma {:induction false} PartIsClean(part: string)
    requires ',' !in part && ReadPart(part).Some?
    ensures Clean(ReadPart(part).value.1)
  {
    var a, b := StripParts(part);
    var text := Strip(part);
    assert forall i | 0 <= i < |text| :: text[i] == part[|a| + i];
    var value := After(text, '=');
    assert value != "" ==> value[|value| - 1] == text[|text| - 1];
  }

  lemma {:induction false} ReadPartsClean(parts: seq<string>)
    requires forall i | 0 <= i < |parts| :: ',' !in parts[i]
    ensures AllClean(ReadParts(parts)) && Distinct(ReadParts(parts))
  {
    if parts != [] {
      var front, last := parts[..|parts| - 1], parts[|parts| - 1];
      ReadPartsClean(front);
      if ReadPart(last).Some? {
        var (k, v) := ReadPart(last).value;
        PartIsClean(last);
        PutAllClean(ReadParts(front), k, v);
        PutDistinct(ReadParts(front), k, v);
      }
    }
  }

  lemma {:induction false} ReadIsClean(header: string)
    ensures AllClean(Read(header)) && Distinct(Read(header))
  {
    SplitIsClean(Strip(header));
    ReadPartsClean(Split(Strip(header)));
  }

  // ------ the update is an overlay ------ //

  /** A directive of a header; the value of one not set is its default. */
  function Get(header: string, k: string): Option<Value> { Lookup(Read(header), k) }

  /** The updates put over a directive: an update that counts is its value, another resets it. */
  function Overlaid(header: string, updates: Directives, k: string): Option<Value> {
    match Lookup(updates, k)
    case Some(v) => if Truthy(v) then Some(v) else None
    case None => Get(header, k)
  }

  ghost predicate IsOverlay(header: string, updates: Directives) {
    forall k | Valid(k) :: Get(UpdateHeader(header, updates), k) == Overlaid(header, updates, k)
  }

  /** Directives of the header that are not updated have no empty value. */
  ghost predicate NoneEmpty(header: string, updates: Directives) {
    forall k | Valid(k) && Lookup(updates, k).None? :: Get(header, k) != Some(Str(""))
  }

  lemma {:induction false} UpdateAt(header: string, updates: Directives, k: string)
    requires updates != [] && Distinct(updates) && AllClean(updates) && Valid(k)
    ensures Get(UpdateHeader(header, updates), k) ==
            match Overlaid(header, updates, k) case Some(v) => if Truthy(v) then Some(v) else None case None => None
  {
    var dict := PutAll(Read(header), updates);
    ReadIsClean(header);
    UpdatesClean(Read(header), updates);
    PutAllDistinct(Read(header), updates);
    KeptPrintable(dict);
    KeptAt(dict, k);
    PrintIsRead(Kept(dict));
    LookupPutAll(Read(header), updates, k);
  }

  lemma {:induction false} LookupIsAmong(dict: Directives, k: string) returns (i: nat)
    requires Lookup(dict, k).Some?
    ensures i < |dict| && dict[i] == (k, Lookup(dict, k).value)
  {
    if dict[0].0 == k {
      i := 0;
    } else {
      var j := LookupIsAmong(dict[1..], k);
      i := j + 1;
    }
  }

  /** Updates that come back are clean. */
  lemma {:induction false} OverlayIsClean(header: string, updates: Directives)
    requires Distinct(updates) && (forall i | 0 <= i < |updates| :: Valid(updates[i].0)) && IsOverlay(header, updates)
    ensures AllClean(updates)
  {
    forall i | 0 <= i < |updates| ensures Clean(updates[i].1) {
      var (k, v) := updates[i];
      DistinctAt(updates, i);
      if Truthy(v) {
        var out := UpdateHeader(header, updates);
        assert Get(out, k) == Some(v);
        ReadIsClean(out);
        var j := LookupIsAmong(Read(out), k);
      }
    }
  }

  /**
   * Reading an updated header gives the header with the updates put over it if and only if the
   * updates have no comma and no space at their end and no directive that stays has an empty value.
   */
  lemma {:induction false} UpdateIsOverlayIff(header: string, updates: Directives)
    requires updates != [] && Distinct(updates) && forall i | 0 <= i < |updates| :: Valid(updates[i].0)
    ensures IsOverlay(header, updates) <==> AllClean(updates) && NoneEmpty(header, updates)
  {
    if IsOverlay(header, updates) {
      OverlayIsClean(header, updates);
    }
    if AllClean(updates) {
      forall k | Valid(k)
        ensures Get(UpdateHeader(header, updates), k) == Overlaid(header, updates, k)
                <==> !(Lookup(updates, k).None? && Get(header, k) == Some(Str("")))
      {
        UpdateAt(header, updates, k);
        ReadTruthy(header, k);
      }
    }
  }

  lemma {:induction false} ReadTruthy(header: string, k: string)
    ensures Get(header, k).Some? ==> Get(header, k).value == Str("") || Truthy(Get(header, k).value)
  {
    if header != "" { ReadPartsTruthy(Split(Strip(header)), k); }
  }

  lemma {:induction false} ReadPartsTruthy(parts: seq<string>, k: string)
    ensures var v := Lookup(ReadParts(parts), k); v.Some? ==> v.value == Str("") || Truthy(v.value)
  {
    if parts != [] {
      var front, last := parts[..|parts| - 1], parts[|parts| - 1];
      ReadPartsTruthy(front, k);
      if ReadPart(last).Some? {
        LookupPut(ReadParts(front), ReadPart(last).value.0, ReadPart(last).value.1, k);
      }
    }
  }
}
