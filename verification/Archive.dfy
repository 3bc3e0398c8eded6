/** app/evidence.py: the bundle archive and its loader. Canonical JSON and its parser are
    parameters; line splitting, blank lines, sizes and member names are the code's own. */
module Archive {
  import opened Ordering
  import opened Integrity
  import opened Evidence

  const MAX_ARCHIVE_BYTES: nat := 64 * 1024 * 1024

  // ---------------------------------------------------------------- text

  /** Length of the UTF-8 encoding. */
  function Utf8Size(text: string): nat {
    if text == "" then 0
    else
      var n := |text| - 1;
      var c := text[n] as int;
      Utf8Size(text[..n]) + if c < 0x80 then 1 else if c < 0x800 then 2 else if c < 0x1_0000 then 3 else 4
  }

  /** Where str.splitlines() ends a line. */
  predicate Boundary(c: char) {
    c as int in {0x0a, 0x0b, 0x0c, 0x0d, 0x1c, 0x1d, 0x1e, 0x85, 0x2028, 0x2029}
  }

  /** What str.strip() removes. */
  predicate Space(c: char) {
    var n := c as int;
    9 <= n <= 13 || 28 <= n <= 32 || n in {0x85, 0xa0, 0x1680, 0x2028, 0x2029, 0x202f, 0x205f, 0x3000}
    || 0x2000 <= n <= 0x200a
  }

  predicate Blank(line: string) {
    forall i :: 0 <= i < |line| ==> Space(line[i])
  }

  function FirstBoundary(text: string): (n: nat)
    ensures n <= |text| && (n < |text| ==> Boundary(text[n]))
    ensures forall i :: 0 <= i < n ==> !Boundary(text[i])
  {
    if text == "" || Boundary(text[0]) then 0 else 1 + FirstBoundary(text[1..])
  }

  function SplitLines(text: string): seq<string>
    decreases |text|
  {
    if text == "" then []
    else
      var n := FirstBoundary(text);
      if n == |text| then [text]
      else
        var next := if text[n] == '\r' && n + 1 < |text| && text[n + 1] == '\n' then n + 2 else n + 1;
        [text[..n]] + SplitLines(text[next..])
  }

  /** Each line followed by a newline, as the writer puts them. */
  function JoinLines(lines: seq<string>): string {
    if lines == [] then "" else lines[0] + "\n" + JoinLines(lines[1..])
  }

  // ---------------------------------------------------------------- JSON lines

  datatype Codec<!T> = Codec(line: T -> string, parse: string -> Option<T>)

  /** Canonical JSON of this object, followed by a newline or not, parses to the object; it
      starts with a brace, escapes all control characters, and no part of it that stops
      early is JSON. */
  ghost predicate Lawful<T>(codec: Codec<T>, value: T) {
    var line := codec.line(value);
    && codec.parse(line) == Some(value) && codec.parse(line + "\n") == Some(value)
    && line != "" && line[0] == '{'
    && (forall i :: 0 <= i < |line| ==> line[i] as int >= 0x20)
    && (forall n :: 0 < n < |line| ==> codec.parse(line[..n]).None?)
  }

  ghost predicate LawfulAll<T>(codec: Codec<T>, values: seq<T>) {
    forall i :: 0 <= i < |values| ==> Lawful(codec, values[i])
  }

  /** The characters that canonical JSON leaves raw although splitlines breaks at them. */
  predicate Breaks(c: char) {
    c as int in {0x85, 0x2028, 0x2029}
  }

  predicate Unbroken(line: string) {
    forall i :: 0 <= i < |line| ==> !Breaks(line[i])
  }

  function Lines<T>(codec: Codec<T>, values: seq<T>): seq<string> {
    seq(|values|, i requires 0 <= i < |values| => codec.line(values[i]))
  }

  /** All lines that are not blank, parsed; None at the first one that is not JSON. */
  function ParseLines<T>(parse: string -> Option<T>, lines: seq<string>): Option<seq<T>> {
    if lines == [] then Some([])
    else
      var n := |lines| - 1;
      match ParseLines(parse, lines[..n])
      case None => None
      case Some(values) =>
        if Blank(lines[n]) then Some(values)
        else
          match parse(lines[n])
          case None => None
          case Some(v) => Some(values + [v])
  }

  method ParseNdjson<T>(content: string, parse: string -> Option<T>) returns (r: Option<seq<T>>)
    ensures r == ParseLines(parse, SplitLines(content))
  {
    var lines := SplitLines(content);
    var values: seq<T> := [];
    for i := 0 to |lines|
      invariant ParseLines(parse, lines[..i]) == Some(values)
    {
      assert lines[..i + 1][..i] == lines[..i];
      if Blank(lines[i]) {
        continue;
      }
      var parsed := parse(lines[i]);
      if parsed.None? {
        ParseStops(parse, lines, i);
        return None;
      }
      values := values + [parsed.value];
    }
    assert lines[..|lines|] == lines;
    return Some(values);
  }

  lemma {:induction false} ParseStops<T>(parse: string -> Option<T>, lines: seq<string>, i: nat)
    requires i < |lines| && ParseLines(parse, lines[..i + 1]).None?
    ensures ParseLines(parse, lines).None?
    decreases |lines|
  {
    hide Blank;
    if i + 1 == |lines| {
      assert lines[..i + 1] == lines;
    } else {
      assert lines[..|lines| - 1][..i + 1] == lines[..i + 1];
      ParseStops(parse, lines[..|lines| - 1], i);
    }
  }

  // ---------------------------------------------------------------- the archive

  /** The members in order, and the size of the compressed file. */
  datatype Zip = Zip(members: seq<(string, string)>, byteSize: nat)

  datatype ArchiveError = SizeLimit | UnexpectedMembers | InvalidJson | InvalidLine(filename: string)

  const MANIFEST := "manifest.json"
  const RECORDS := "records.ndjson"
  const CHAIN := "chain.ndjson"

  datatype Format = Format(manifest: Codec<Manifest>, record: Codec<VerifiableRecord>, proof: Codec<Proof>)

  /** The format is canonical JSON on this bundle's manifest, records and proofs. */
  ghost predicate LawfulFormat(format: Format, bundle: Bundle) {
    && Lawful(format.manifest, bundle.manifest)
    && LawfulAll(format.record, bundle.records) && LawfulAll(format.proof, bundle.chain)
  }

  /** One member, written line by line against the size that is left. */
  method WriteLines(lines: seq<string>, writtenBytes: nat, maximumBytes: nat)
    returns (r: Option<string>, total: nat)
    ensures total == writtenBytes + Utf8Size(JoinLines(lines)) || r.None?
    ensures r.Some? <==> lines == [] || writtenBytes + Utf8Size(JoinLines(lines)) <= maximumBytes
    ensures r.Some? ==> r.value == JoinLines(lines)
  {
    total := writtenBytes;
    var content := "";
    for i := 0 to |lines|
      invariant content == JoinLines(lines[..i])
      invariant total == writtenBytes + Utf8Size(content)
      invariant i > 0 ==> total <= maximumBytes
    {
      var line := lines[i] + "\n";
      JoinOneMore(lines[..i], lines[i]);
      assert lines[..i + 1] == lines[..i] + [lines[i]];
      SizeAdds(content, line);
      assert content + line == JoinLines(lines[..i + 1]);
      total := total + Utf8Size(line);
      if total > maximumBytes {
        JoinGrows(lines, i + 1);
        return None, total;
      }
      content := content + line;
    }
    assert lines[..|lines|] == lines;
    return Some(content), total;
  }

  lemma {:induction false} SizeAdds(a: string, b: string)
    ensures Utf8Size(a + b) == Utf8Size(a) + Utf8Size(b)
    decreases |b|
  {
    if b == "" {
      assert a + b == a;
    } else {
      SizeAdds(a, b[..|b| - 1]);
      assert (a + b)[..|a + b| - 1] == a + b[..|b| - 1];
    }
  }

  lemma {:induction false} JoinOneMore(lines: seq<string>, line: string)
    ensures JoinLines(lines + [line]) == JoinLines(lines) + line + "\n"
  {
    if lines == [] {
      assert lines + [line] == [line];
      assert JoinLines([line]) == line + "\n" + JoinLines([]);
    } else {
      JoinOneMore(lines[1..], line);
      assert (lines + [line])[1..] == lines[1..] + [line];
    }
  }

  lemma {:induction false} JoinGrows(lines: seq<string>, n: nat)
    requires n <= |lines|
    ensures Utf8Size(JoinLines(lines[..n])) <= Utf8Size(JoinLines(lines))
    decreases |lines|
  {
    if n < |lines| {
      var m := |lines| - 1;
      JoinGrows(lines[..m], n);
      assert lines[..m][..n] == lines[..n] && lines == lines[..m] + [lines[m]];
      JoinOneMore(lines[..m], lines[m]);
      SizeAdds(JoinLines(lines[..m]), lines[m] + "\n");
      assert JoinLines(lines[..m]) + lines[m] + "\n" == JoinLines(lines[..m]) + (lines[m] + "\n");
    } else {
      assert lines[..n] == lines;
    }
  }

  function Members(format: Format, bundle: Bundle): seq<(string, string)> {
    [(MANIFEST, JoinLines([format.manifest.line(bundle.manifest)])),
     (RECORDS, JoinLines(Lines(format.record, bundle.records))),
     (CHAIN, JoinLines(Lines(format.proof, bundle.chain)))]
  }

  function TotalSize(members: seq<(string, string)>): nat {
    if members == [] then 0 else Utf8Size(members[0].1) + TotalSize(members[1..])
  }

  /** build_evidence_bundle_archive; compressed is the size of the file that ZIP makes. */
  method BuildArchive(format: Format, bundle: Bundle, maximumBytes: nat, compressed: seq<(string, string)> -> nat)
    returns (r: Result<Zip, ArchiveError>)
    ensures var members := Members(format, bundle);
            if TotalSize(members) <= maximumBytes && compressed(members) <= maximumBytes
            then r == Ok(Zip(members, compressed(members))) else r == Err(SizeLimit)
  {
    hide JoinLines, Utf8Size;
    ThreeMembers(Members(format, bundle));
    var manifest, afterManifest := WriteLines([format.manifest.line(bundle.manifest)], 0, maximumBytes);
    if manifest.None? {
      return Err(SizeLimit);
    }
    var records, afterRecords := WriteLines(Lines(format.record, bundle.records), afterManifest, maximumBytes);
    if records.None? {
      return Err(SizeLimit);
    }
    EmptyAddsNothing();
    var chain, afterChain := WriteLines(Lines(format.proof, bundle.chain), afterRecords, maximumBytes);
    if chain.None? {
      return Err(SizeLimit);
    }
    var members := [(MANIFEST, manifest.value), (RECORDS, records.value), (CHAIN, chain.value)];
    if compressed(members) > maximumBytes {
      return Err(SizeLimit);
    }
    return Ok(Zip(members, compressed(members)));
  }

  lemma EmptyAddsNothing()
    ensures Utf8Size(JoinLines([])) == 0
  {
  }

  lemma ThreeMembers(members: seq<(string, string)>)
    requires |members| == 3
    ensures TotalSize(members) == Utf8Size(members[0].1) + Utf8Size(members[1].1) + Utf8Size(members[2].1)
  {
    assert members[1..][1..] == [members[2]] && [members[2]][1..] == [];
    assert TotalSize([members[2]]) == Utf8Size(members[2].1);
    assert TotalSize(members[1..]) == Utf8Size(members[1].1) + TotalSize(members[1..][1..]);
  }

  function Names(members: seq<(string, string)>): seq<string> {
    seq(|members|, i requires 0 <= i < |members| => members[i].0)
  }

  function Content(members: seq<(string, string)>, name: string): string {
    if members == [] then "" else if members[0].0 == name then members[0].1 else Content(members[1..], name)
  }

  predicate ExpectedNames(names: seq<string>) {
    (forall i, j :: 0 <= i < j < |names| ==> names[i] != names[j])
    && (set i | 0 <= i < |names| :: names[i]) == {MANIFEST, RECORDS, CHAIN}
  }

  /** load_evidence_bundle_archive on a well-formed ZIP file. */
  method LoadArchive(format: Format, zip: Zip) returns (r: Result<Bundle, ArchiveError>)
    ensures r == Loaded(format, zip)
  {
    if zip.byteSize > MAX_ARCHIVE_BYTES {
      return Err(SizeLimit);
    }
    if !ExpectedNames(Names(zip.members)) {
      return Err(UnexpectedMembers);
    }
    if TotalSize(zip.members) > MAX_ARCHIVE_BYTES {
      return Err(SizeLimit);
    }
    var manifest := format.manifest.parse(Content(zip.members, MANIFEST));
    if manifest.None? {
      return Err(InvalidJson);
    }
    var records := ParseNdjson(Content(zip.members, RECORDS), format.record.parse);
    if records.None? {
      return Err(InvalidLine(RECORDS));
    }
    var chain := ParseNdjson(Content(zip.members, CHAIN), format.proof.parse);
    if chain.None? {
      return Err(InvalidLine(CHAIN));
    }
    return Ok(Bundle(manifest.value, records.value, chain.value));
  }

  function Loaded(format: Format, zip: Zip): Result<Bundle, ArchiveError> {
    if zip.byteSize > MAX_ARCHIVE_BYTES then Err(SizeLimit)
    else if !ExpectedNames(Names(zip.members)) then Err(UnexpectedMembers)
    else if TotalSize(zip.members) > MAX_ARCHIVE_BYTES then Err(SizeLimit)
    else
      var manifest := format.manifest.parse(Content(zip.members, MANIFEST));
      var records := ParseLines(format.record.parse, SplitLines(Content(zip.members, RECORDS)));
      var chain := ParseLines(format.proof.parse, SplitLines(Content(zip.members, CHAIN)));
      if manifest.None? then Err(InvalidJson)
      else if records.None? then Err(InvalidLine(RECORDS))
      else if chain.None? then Err(InvalidLine(CHAIN))
      else Ok(Bundle(manifest.value, records.value, chain.value))
  }

  // ---------------------------------------------------------------- the round trip

  lemma FirstLine(line: string, rest: string)
    requires forall i :: 0 <= i < |line| ==> line[i] as int >= 0x20
    ensures var n := FirstBoundary(line);
            && (n == |line| <==> Unbroken(line))
            && SplitLines(line + "\n" + rest) != []
            && (n == |line| ==> SplitLines(line + "\n" + rest) == [line] + SplitLines(rest))
            && (n < |line| ==> SplitLines(line + "\n" + rest)[0] == line[..n])
  {
    var n := FirstBoundary(line);
    var text := line + "\n" + rest;
    BoundaryOfPrefix(line, "\n" + rest);
    assert text == line + ("\n" + rest);
    assert FirstBoundary(text) == n;
    assert text[|line|] == '\n';
    if n == |line| {
      assert text[..n] == line && text[n + 1..] == rest;
    } else {
      assert text[..n] == line[..n];
    }
  }

  lemma {:induction false} BoundaryOfPrefix(a: string, b: string)
    requires b != "" && Boundary(b[0])
    ensures FirstBoundary(a + b) == FirstBoundary(a)
  {
    hide Boundary;
    if a == "" {
      assert a + b == b;
    } else {
      BoundaryOfPrefix(a[1..], b);
      assert (a + b)[1..] == a[1..] + b;
    }
  }

  /** One more line in front. */
  lemma {:induction false} ParseFirst<T>(parse: string -> Option<T>, line: string, rest: seq<string>)
    requires !Blank(line)
    ensures parse(line).None? ==> ParseLines(parse, [line] + rest).None?
    ensures parse(line).Some? ==>
              ParseLines(parse, [line] + rest)
              == match ParseLines(parse, rest)
                 case None => None
                 case Some(values) => Some([parse(line).value] + values)
    decreases |rest|
  {
    hide Blank;
    var lines := [line] + rest;
    if rest == [] {
      assert lines == [line] && [line][..0] == [];
      assert ParseLines(parse, []) == Some([]);
      if parse(line).Some? {
        assert [] + [parse(line).value] == [parse(line).value] + [];
      }
    } else {
      var n := |rest| - 1;
      ParseFirst(parse, line, rest[..n]);
      assert lines[..|lines| - 1] == [line] + rest[..n] && lines[|lines| - 1] == rest[n];
      if parse(line).Some? && ParseLines(parse, rest).Some? {
        var (x, before) := (parse(line).value, ParseLines(parse, rest[..n]).value);
        if !Blank(rest[n]) {
          assert ([x] + before) + [parse(rest[n]).value] == [x] + (before + [parse(rest[n]).value]);
        }
      }
    }
  }

  /** What is written reads back exactly when no line holds a character at which splitlines
      breaks; otherwise reading fails. */
  lemma {:induction false} LinesRoundTrip<T>(codec: Codec<T>, values: seq<T>)
    requires LawfulAll(codec, values)
    ensures var read := ParseLines(codec.parse, SplitLines(JoinLines(Lines(codec, values))));
            if forall i :: 0 <= i < |values| ==> Unbroken(codec.line(values[i])) then read == Some(values)
            else read == None
    decreases |values|
  {
    hide Unbroken, SplitLines, Blank;
    if values == [] {
      EmptyReads(codec);
    } else {
      var line := codec.line(values[0]);
      assert Lawful(codec, values[0]);
      var rest := JoinLines(Lines(codec, values[1..]));
      assert Lines(codec, values)[1..] == Lines(codec, values[1..]);
      assert JoinLines(Lines(codec, values)) == line + "\n" + rest;
      LinesRoundTrip(codec, values[1..]);
      FirstLine(line, rest);
      var n := FirstBoundary(line);
      if n == |line| {
        NotBlank(line);
        ParseFirst(codec.parse, line, SplitLines(rest));
        assert values == [values[0]] + values[1..];
      } else {
        var lines := SplitLines(line + "\n" + rest);
        NotBlank(line[..n]);
        ParseFirst(codec.parse, line[..n], lines[1..]);
        assert lines == [line[..n]] + lines[1..];
      }
    }
  }

  lemma EmptyReads<T>(codec: Codec<T>)
    ensures ParseLines(codec.parse, SplitLines(JoinLines(Lines(codec, [])))) == Some([])
  {
    assert Lines(codec, []) == [];
  }

  lemma NotBlank(line: string)
    requires line != "" && line[0] == '{'
    ensures !Blank(line)
  {
    assert !Space(line[0]);
  }

  /** No record and no proof holds one of the three characters. */
  ghost predicate Splittable(format: Format, bundle: Bundle) {
    && (forall i :: 0 <= i < |bundle.records| ==> Unbroken(format.record.line(bundle.records[i])))
    && (forall i :: 0 <= i < |bundle.chain| ==> Unbroken(format.proof.line(bundle.chain[i])))
  }

  /** A built archive loads back to its bundle exactly when no serialised record or proof
      holds U+0085, U+2028 or U+2029. */
  lemma LoadInvertsBuild(format: Format, bundle: Bundle, maximumBytes: nat, compressed: nat)
    requires LawfulFormat(format, bundle) && maximumBytes <= MAX_ARCHIVE_BYTES
    requires TotalSize(Members(format, bundle)) <= maximumBytes && compressed <= maximumBytes
    ensures Loaded(format, Zip(Members(format, bundle), compressed)) == Ok(bundle) <==> Splittable(format, bundle)
    ensures !Splittable(format, bundle) ==> Loaded(format, Zip(Members(format, bundle), compressed)).Err?
  {
    hide Lawful, ParseLines, SplitLines, Unbroken, TotalSize, JoinLines, ExpectedNames, Names;
    var members := Members(format, bundle);
    MembersNamed(members);
    ManifestReads(format, bundle);
    LinesRoundTrip(format.record, bundle.records);
    LinesRoundTrip(format.proof, bundle.chain);
  }

  lemma MembersNamed(members: seq<(string, string)>)
    requires |members| == 3 && members[0].0 == MANIFEST && members[1].0 == RECORDS && members[2].0 == CHAIN
    ensures ExpectedNames(Names(members))
    ensures Content(members, MANIFEST) == members[0].1
    ensures Content(members, RECORDS) == members[1].1
    ensures Content(members, CHAIN) == members[2].1
  {
    var names := Names(members);
    assert MANIFEST[0] != RECORDS[0] && MANIFEST[0] != CHAIN[0] && RECORDS[0] != CHAIN[0];
    assert names == [MANIFEST, RECORDS, CHAIN];
    assert names[0] == MANIFEST && names[1] == RECORDS && names[2] == CHAIN;
    assert members[1..][1..] == [members[2]] && members[1..][0] == members[1];
    assert Content([members[2]], CHAIN) == members[2].1;
    assert Content(members[1..], CHAIN) == Content(members[1..][1..], CHAIN);
  }

  lemma ManifestReads(format: Format, bundle: Bundle)
    requires Lawful(format.manifest, bundle.manifest)
    ensures format.manifest.parse(JoinLines([format.manifest.line(bundle.manifest)])) == Some(bundle.manifest)
  {
    var line := format.manifest.line(bundle.manifest);
    assert [line][1..] == [] && JoinLines([]) == "";
    assert JoinLines([line]) == line + "\n";
  }

  // ---------------------------------------------------------------- witnesses

  /** A codec for one value, with a free text in it. */
  function CodecOf<T>(value: T, text: string): Codec<T> {
    Codec(_ => "{" + text + "}", line => if line == "{" + text + "}" || line == "{" + text + "}\n" then Some(value) else None)
  }

  lemma CodecOfIsLawful<T>(value: T, text: string)
    requires forall i :: 0 <= i < |text| ==> text[i] as int >= 0x20
    ensures Lawful(CodecOf(value, text), value)
  {
    var line := "{" + text + "}";
    forall n | 0 < n < |line| ensures CodecOf(value, text).parse(line[..n]).None? {
      assert |line[..n]| < |line|;
    }
  }

  /** A bundle of one record whose text holds the given characters. */
  lemma SomeBundleLoadsIff(bundle: Bundle, text: string)
    requires |bundle.records| == 1 && bundle.chain == []
    requires |text| <= 1000 && forall i :: 0 <= i < |text| ==> text[i] as int >= 0x20
    ensures var format := Format(CodecOf(bundle.manifest, ""), CodecOf(bundle.records[0], text),
                                 Codec(_ => "", _ => None));
            && LawfulFormat(format, bundle) && TotalSize(Members(format, bundle)) <= MAX_ARCHIVE_BYTES
            && (Loaded(format, Zip(Members(format, bundle), 0)) == Ok(bundle) <==> Unbroken(text))
  {
    hide Loaded, Lawful, Utf8Size;
    var none: Codec<Proof> := Codec(_ => "", _ => None);
    var format := Format(CodecOf(bundle.manifest, ""), CodecOf(bundle.records[0], text), none);
    CodecOfIsLawful(bundle.manifest, "");
    CodecOfIsLawful(bundle.records[0], text);
    var line := format.record.line(bundle.records[0]);
    assert line == "{" + text + "}";
    assert Unbroken(line) <==> Unbroken(text) by { SameBreaks(text); }
    SmallMembers(format, bundle, line);
    LoadInvertsBuild(format, bundle, MAX_ARCHIVE_BYTES, 0);
  }

  lemma SameBreaks(text: string)
    ensures Unbroken("{" + text + "}") <==> Unbroken(text)
  {
    var line := "{" + text + "}";
    assert forall i :: 0 <= i < |text| ==> line[i + 1] == text[i];
  }

  lemma {:induction false} Utf8Bound(text: string)
    ensures Utf8Size(text) <= 4 * |text|
    decreases |text|
  {
    if text != "" {
      Utf8Bound(text[..|text| - 1]);
    }
  }

  lemma SmallMembers(format: Format, bundle: Bundle, line: string)
    requires |bundle.records| == 1 && bundle.chain == [] && format.manifest.line(bundle.manifest) == "{" + "" + "}"
    requires format.record.line(bundle.records[0]) == line && |line| <= 1002
    ensures TotalSize(Members(format, bundle)) <= MAX_ARCHIVE_BYTES
  {
    hide Utf8Size;
    var members := Members(format, bundle);
    ThreeMembers(members);
    OneLine("{" + "" + "}");
    OneLine(line);
    assert Lines(format.record, bundle.records) == [line];
    assert Lines(format.proof, bundle.chain) == [];
    Utf8Bound(members[0].1);
    Utf8Bound(members[1].1);
    Utf8Bound(members[2].1);
  }

  lemma OneLine(line: string)
    ensures JoinLines([line]) == line + "\n"
  {
    assert [line][1..] == [] && JoinLines([]) == "";
  }

  /** It does happen: one line separator (U+2028) in a record's text, and the archive that was
      built does not load. */
  lemma SeparatorBreaksArchive(bundle: Bundle)
    requires |bundle.records| == 1 && bundle.chain == []
    ensures exists format :: LawfulFormat(format, bundle) && TotalSize(Members(format, bundle)) <= MAX_ARCHIVE_BYTES
                             && Loaded(format, Zip(Members(format, bundle), 0)).Err?
  {
    hide Loaded, LawfulFormat, Members, TotalSize;
    var text := [0x2028 as char];
    assert Breaks(text[0]);
    SomeBundleLoadsIff(bundle, text);
    var format := Format(CodecOf(bundle.manifest, ""), CodecOf(bundle.records[0], text), Codec(_ => "", _ => None));
    LoadInvertsBuild(format, bundle, MAX_ARCHIVE_BYTES, 0);
  }
}
