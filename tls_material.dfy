/**
 * Handling of the PEM text found in the tls.crt entry of a Secret: blank-line
 * removal, the split of a bundle into the leaf certificate and the rest of the
 * chain, the certificate checks made before anything is uploaded, and the
 * SHA-1 fingerprint that identifies uploaded material.  PEM decoding, X.509
 * parsing and SHA-1 are not interpreted: they are the fields of a Codec.
 */
module TlsMaterial {
  import opened Wrappers
  import opened Text

  newtype byte = x: int | 0 <= x < 256

  /** One decoded PEM block: its type label and its payload. */
  datatype PemBlock = PemBlock(blockType: string, bytes: seq<byte>)

  /** The part of a parsed X.509 certificate that the controller looks at. */
  datatype X509Certificate = X509Certificate(dnsNames: seq<string>)

  /**
   * pem.Decode (the first PEM block of a text, if any), x509.ParseCertificate
   * and sha1.Sum.
   */
  datatype Codec = Codec(
    pemDecode: string -> Option<PemBlock>,
    parseCertificate: seq<byte> -> Result<X509Certificate, string>,
    sha1: seq<byte> -> seq<byte>)

  /** sha1.Sum always yields 20 bytes. */
  ghost predicate Sha1Sized(codec: Codec) {
    forall der :: |codec.sha1(der)| == 20
  }

  const CertificateType := "CERTIFICATE"
  const BeginMarker := "-----BEGIN"
  const EndMarker := "-----END"

  const NoCertificateError := "can't find certificate, please verify your tls.crt section"
  const WrongTypeError := "can't find certificate, expected CERTIFICATE, got: "
  const ParseError := "can't parse certificate: "
  const NoDnsNamesError := "can't find dns names for certificate"

  /** A line that opens a PEM block. */
  predicate IsBeginLine(line: string) {
    HasPrefix(line, BeginMarker)
  }

  /** A line that closes a PEM block. */
  predicate IsEndLine(line: string) {
    HasPrefix(line, EndMarker)
  }

  /** A marker line can be an opening or a closing one, never both. */
  lemma MarkersExclusive(line: string)
    ensures !(IsBeginLine(line) && IsEndLine(line))
  {
    if IsBeginLine(line) {
      assert line[..|BeginMarker|][5] == 'B';
    }
  }

  // ---------------------------------------------------------------- stripSpaces

  /** The lines that survive stripping: each one trimmed, the blank ones dropped. */
  function KeptLines(lines: seq<string>): (out: seq<string>)
    ensures |out| <= |lines|
  {
    if lines == [] then []
    else
      var t := TrimSpace(lines[0]);
      (if t != "" then [t] else []) + KeptLines(lines[1..])
  }

  /** The text stripSpaces returns: the kept lines joined by newlines. */
  function Stripped(s: string): string {
    Join(KeptLines(Split(s, '\n')), '\n')
  }

  /** A property of every non-blank trimmed line holds of every kept line. */
  lemma {:induction false} KeptLinesAll(lines: seq<string>, P: string -> bool)
    requires forall k :: 0 <= k < |lines| && TrimSpace(lines[k]) != "" ==> P(TrimSpace(lines[k]))
    ensures forall k :: 0 <= k < |KeptLines(lines)| ==> P(KeptLines(lines)[k])
  {
    if lines != [] {
      KeptLinesAll(lines[1..], P);
      var t := TrimSpace(lines[0]);
      var rest := KeptLines(lines[1..]);
      assert KeptLines(lines) == (if t != "" then [t] else []) + rest;
      forall k | 0 <= k < |KeptLines(lines)|
        ensures P(KeptLines(lines)[k])
      {
        if t != "" && k == 0 {
          assert P(TrimSpace(lines[0]));
        } else if t != "" {
          assert KeptLines(lines)[k] == rest[k - 1];
        } else {
          assert KeptLines(lines)[k] == rest[k];
        }
      }
    }
  }

  /** Every kept line is non-blank and trimmed. */
  lemma KeptLinesTrimmed(lines: seq<string>)
    ensures forall k :: 0 <= k < |KeptLines(lines)| ==> KeptLines(lines)[k] != [] && Trimmed(KeptLines(lines)[k])
  {
    var P := (line: string) => line != [] && Trimmed(line);
    forall k | 0 <= k < |lines| && TrimSpace(lines[k]) != ""
      ensures P(TrimSpace(lines[k]))
    {
      TrimSpaceFacts(lines[k]);
    }
    KeptLinesAll(lines, P);
  }

  lemma {:induction false} KeptLinesNoNewline(lines: seq<string>)
    requires forall k :: 0 <= k < |lines| ==> '\n' !in lines[k]
    ensures forall k :: 0 <= k < |KeptLines(lines)| ==> '\n' !in KeptLines(lines)[k]
  {
    if lines != [] {
      KeptLinesNoNewline(lines[1..]);
      var t := TrimSpace(lines[0]);
      TrimSpaceFacts(lines[0]);
      var i := |lines[0]| - |TrimLeft(lines[0])|;
      assert t == lines[0][i..i + |t|];
    }
  }

  /** Lines that are already non-blank and trimmed are kept as they are. */
  lemma {:induction false} KeptLinesOfKept(lines: seq<string>)
    requires forall k :: 0 <= k < |lines| ==> lines[k] != [] && Trimmed(lines[k])
    ensures KeptLines(lines) == lines
  {
    if lines != [] {
      TrimSpaceOfTrimmed(lines[0]);
      KeptLinesOfKept(lines[1..]);
    }
  }

  /** The lines of a stripped text are exactly the kept lines (or the one empty line of ""). */
  lemma StrippedLines(s: string)
    ensures var lines := Split(Stripped(s), '\n');
      if KeptLines(Split(s, '\n')) == [] then Stripped(s) == "" && lines == [""]
      else lines == KeptLines(Split(s, '\n'))
  {
    var kept := KeptLines(Split(s, '\n'));
    KeptLinesNoNewline(Split(s, '\n'));
    if kept != [] {
      SplitJoin(kept, '\n');
    }
  }

  /** Every line of a stripped text is trimmed, and unless the text is empty none is blank. */
  lemma StrippedLinesTrimmed(s: string)
    ensures forall k :: 0 <= k < |CertLines(s)| ==> Trimmed(CertLines(s)[k])
    ensures Stripped(s) != "" ==> forall k :: 0 <= k < |CertLines(s)| ==> CertLines(s)[k] != ""
  {
    StrippedLines(s);
    var lines, kept := Split(Stripped(s), '\n'), KeptLines(Split(s, '\n'));
    KeptLinesTrimmed(Split(s, '\n'));
    if kept == [] {
      assert lines == [""] && Trimmed(lines[0]);
    } else {
      assert lines == kept;
    }
  }

  /** A stripped text never ends in a newline. */
  lemma StrippedNoTrailingNewline(s: string)
    ensures Stripped(s) == "" || Stripped(s)[|Stripped(s)| - 1] != '\n'
  {
    var kept := KeptLines(Split(s, '\n'));
    KeptLinesNoNewline(Split(s, '\n'));
    KeptLinesTrimmed(Split(s, '\n'));
    if kept != [] {
      JoinNoTrailingSeparator(kept, '\n');
    }
  }

  /** Stripping twice is stripping once. */
  lemma StripIdempotent(s: string)
    ensures Stripped(Stripped(s)) == Stripped(s)
  {
    var kept := KeptLines(Split(s, '\n'));
    StrippedLines(s);
    if kept == [] {
      assert KeptLines([""]) == [];
    } else {
      KeptLinesTrimmed(Split(s, '\n'));
      KeptLinesOfKept(kept);
    }
  }

  /** stripSpaces keeps every line that is not blank once trimmed, in order, trimmed. */
  method StripSpaces(b: string) returns (r: string)
    ensures r == Stripped(b)
  {
    var lines := Split(b, '\n');
    var out: seq<string> := [];
    for i := 0 to |lines|
      invariant out + KeptLines(lines[i..]) == KeptLines(lines)
    {
      var trimmed := TrimSpace(lines[i]);
      ghost var rest := KeptLines(lines[i + 1..]);
      assert lines[i..][1..] == lines[i + 1..];
      if trimmed != "" {
        assert out + ([trimmed] + rest) == (out + [trimmed]) + rest;
        out := out + [trimmed];
      }
    }
    assert lines[|lines|..] == [];
    assert out == KeptLines(lines);
    r := Join(out, '\n');
  }

  // ---------------------------------------------------------------- splitCerts

  /** The loop state of splitCerts. */
  datatype SplitState = SplitState(started: bool, iter: nat, primary: seq<string>, chain: seq<string>)

  const Initial := SplitState(false, 0, [], [])

  /** One iteration of the loop of splitCerts. */
  function SplitStep(st: SplitState, line: string): SplitState {
    var started := st.started || IsBeginLine(line);
    if !started then st
    else
      var t := TrimSpace(line);
      var st1 := if st.iter == 0 then st.(primary := st.primary + [t]) else st.(chain := st.chain + [t]);
      if IsEndLine(line) then st1.(started := false, iter := st.iter + 1)
      else st1.(started := true)
  }

  function SplitFold(st: SplitState, lines: seq<string>): SplitState
    decreases |lines|
  {
    if lines == [] then st else SplitFold(SplitStep(st, lines[0]), lines[1..])
  }

  /** What splitCerts returns: the leaf PEM text and the rest of the chain, each absent when empty. */
  datatype CertParts = CertParts(primary: Option<string>, chain: Option<string>)

  function PartsOf(st: SplitState): CertParts {
    if |st.primary| == 0 then CertParts(None, None)
    else if |st.chain| == 0 then CertParts(Some(Join(st.primary, '\n')), None)
    else CertParts(Some(Join(st.primary, '\n')), Some(Join(st.chain, '\n')))
  }

  /** The lines splitCerts walks over. */
  function CertLines(crt: string): seq<string> {
    Split(Stripped(crt), '\n')
  }

  function CertPartsOf(crt: string): CertParts {
    PartsOf(SplitFold(Initial, CertLines(crt)))
  }

  /** The trimmed lines inside PEM blocks, `started` telling whether a block is already open. */
  function BlockLines(started: bool, lines: seq<string>): seq<string>
    decreases |lines|
  {
    if lines == [] then []
    else
      var open := started || IsBeginLine(lines[0]);
      if !open then BlockLines(false, lines[1..])
      else [TrimSpace(lines[0])] + BlockLines(!IsEndLine(lines[0]), lines[1..])
  }

  /** Every line trimmed. */
  function TrimAll(lines: seq<string>): seq<string> {
    if lines == [] then [] else [TrimSpace(lines[0])] + TrimAll(lines[1..])
  }

  /** Lines that are already trimmed come out of TrimAll unchanged. */
  lemma {:induction false} TrimAllOfTrimmed(lines: seq<string>)
    requires forall k :: 0 <= k < |lines| ==> Trimmed(lines[k])
    ensures TrimAll(lines) == lines
  {
    if lines != [] {
      TrimSpaceOfTrimmed(lines[0]);
      TrimAllOfTrimmed(lines[1..]);
    }
  }

  lemma {:induction false} TrimAllSnoc(lines: seq<string>, line: string)
    ensures TrimAll(lines + [line]) == TrimAll(lines) + [TrimSpace(line)]
  {
    if lines == [] {
      assert lines + [line] == [line];
    } else {
      assert (lines + [line])[1..] == lines[1..] + [line];
      TrimAllSnoc(lines[1..], line);
    }
  }

  predicate NoBegin(lines: seq<string>) {
    forall k :: 0 <= k < |lines| ==> !IsBeginLine(lines[k])
  }

  predicate NoEnd(lines: seq<string>) {
    forall k :: 0 <= k < |lines| ==> !IsEndLine(lines[k])
  }

  lemma {:induction false} FoldConcat(st: SplitState, a: seq<string>, c: seq<string>)
    ensures SplitFold(st, a + c) == SplitFold(SplitFold(st, a), c)
    decreases |a|
  {
    if a == [] {
      assert a + c == c;
    } else {
      assert (a + c)[0] == a[0];
      assert (a + c)[1..] == a[1..] + c;
      FoldConcat(SplitStep(st, a[0]), a[1..], c);
    }
  }

  /** Outside a block, lines without an opening marker are skipped. */
  lemma {:induction false} FoldSkips(st: SplitState, lines: seq<string>)
    requires !st.started && NoBegin(lines)
    ensures SplitFold(st, lines) == st
    decreases |lines|
  {
    if lines != [] {
      FoldSkips(st, lines[1..]);
    }
  }

  /** Inside the first block, lines without a closing marker go to primary. */
  lemma {:induction false} FoldInBlock(st: SplitState, a: seq<string>)
    requires st.started && st.iter == 0 && NoEnd(a)
    ensures SplitFold(st, a) == SplitState(true, 0, st.primary + TrimAll(a), st.chain)
    decreases |a|
  {
    if a == [] {
      assert st.primary + TrimAll(a) == st.primary;
    } else {
      var st1 := SplitState(true, 0, st.primary + [TrimSpace(a[0])], st.chain);
      assert SplitStep(st, a[0]) == st1 by {
        assert !IsEndLine(a[0]);
      }
      assert NoEnd(a[1..]) by {
        forall k | 0 <= k < |a[1..]|
          ensures !IsEndLine(a[1..][k])
        {
          assert a[1..][k] == a[k + 1];
        }
      }
      FoldInBlock(st1, a[1..]);
      assert st1.primary + TrimAll(a[1..]) == st.primary + TrimAll(a);
    }
  }

  /** After the first block, primary is frozen and the lines of later blocks go to chain. */
  lemma {:induction false} FoldLaterBlocks(st: SplitState, lines: seq<string>)
    requires st.iter >= 1
    ensures SplitFold(st, lines).primary == st.primary
    ensures SplitFold(st, lines).chain == st.chain + BlockLines(st.started, lines)
    decreases |lines|
  {
    if lines != [] {
      var st1 := SplitStep(st, lines[0]);
      FoldLaterBlocks(st1, lines[1..]);
      var open := st.started || IsBeginLine(lines[0]);
      if open {
        assert st1.chain == st.chain + [TrimSpace(lines[0])];
        assert st1.started == !IsEndLine(lines[0]);
        assert st.chain + [TrimSpace(lines[0])] + BlockLines(st1.started, lines[1..])
          == st.chain + BlockLines(st.started, lines);
      }
    }
  }

  lemma BlockLinesNone(started: bool, lines: seq<string>)
    requires !started && NoBegin(lines)
    ensures BlockLines(started, lines) == []
    decreases |lines|
  {
    if lines != [] {
      BlockLinesNone(false, lines[1..]);
    }
  }

  /** A bundle without an opening marker has neither a primary certificate nor a chain. */
  lemma CertPartsNoBlock(crt: string)
    requires NoBegin(CertLines(crt))
    ensures CertPartsOf(crt) == CertParts(None, None)
  {
    FoldSkips(Initial, CertLines(crt));
  }

  /** b is the first line that opens a block and e the first line from b that closes one. */
  ghost predicate FirstBlock(lines: seq<string>, b: nat, e: nat) {
    b <= e < |lines| && NoBegin(lines[..b]) && IsBeginLine(lines[b]) &&
    NoEnd(lines[b..e]) && IsEndLine(lines[e])
  }

  /** From the opening line up to (not including) line j, with no closing marker in between. */
  lemma FoldOpenBlock(lines: seq<string>, b: nat, j: nat)
    requires b < j <= |lines| && NoBegin(lines[..b]) && IsBeginLine(lines[b]) && NoEnd(lines[b..j])
    ensures SplitFold(Initial, lines[..j]) == SplitState(true, 0, TrimAll(lines[b..j]), [])
  {
    var pre, open, body := lines[..b], lines[b], lines[b + 1..j];
    assert lines[..j] == pre + ([open] + body);
    assert lines[b..j] == [open] + body;
    FoldConcat(Initial, pre, [open] + body);
    FoldSkips(Initial, pre);
    assert !IsEndLine(open);
    var st1 := SplitStep(Initial, open);
    assert st1 == SplitState(true, 0, [TrimSpace(open)], []);
    assert SplitFold(Initial, [open] + body) == SplitFold(st1, body);
    FoldInBlock(st1, body);
  }

  /**
   * The primary certificate is the first block, from its opening through its
   * closing marker, and the chain is made of the lines of every later block.
   */
  lemma FoldSplitsFirstBlock(lines: seq<string>, b: nat, e: nat)
    requires FirstBlock(lines, b, e)
    ensures SplitFold(Initial, lines).primary == TrimAll(lines[b..e + 1])
    ensures SplitFold(Initial, lines).chain == BlockLines(false, lines[e + 1..])
  {
    MarkersExclusive(lines[b]);
    assert b < e;
    FoldOpenBlock(lines, b, e);
    var st := SplitState(true, 0, TrimAll(lines[b..e]), []);
    var st1 := SplitStep(st, lines[e]);
    assert st1 == SplitState(false, 1, TrimAll(lines[b..e]) + [TrimSpace(lines[e])], []);
    assert lines == lines[..e] + ([lines[e]] + lines[e + 1..]);
    FoldConcat(Initial, lines[..e], [lines[e]] + lines[e + 1..]);
    assert SplitFold(st, [lines[e]] + lines[e + 1..]) == SplitFold(st1, lines[e + 1..]);
    FoldLaterBlocks(st1, lines[e + 1..]);
    assert lines[b..e + 1] == lines[b..e] + [lines[e]];
    TrimAllSnoc(lines[b..e], lines[e]);
  }

  /** A first block that is never closed makes up the whole primary certificate, with no chain. */
  lemma FoldUnclosedBlock(lines: seq<string>, b: nat)
    requires b < |lines| && NoBegin(lines[..b]) && IsBeginLine(lines[b]) && NoEnd(lines[b..])
    ensures SplitFold(Initial, lines) == SplitState(true, 0, TrimAll(lines[b..]), [])
  {
    assert lines[..|lines|] == lines;
    FoldOpenBlock(lines, b, |lines|);
  }

  /** The lines of a stripped text come out of TrimSpace unchanged. */
  lemma TrimAllOfCertLines(crt: string, i: nat, j: nat)
    requires i <= j <= |CertLines(crt)|
    ensures TrimAll(CertLines(crt)[i..j]) == CertLines(crt)[i..j]
  {
    var lines := CertLines(crt);
    StrippedLinesTrimmed(crt);
    assert forall k :: 0 <= k < j - i ==> lines[i..j][k] == lines[i + k];
    TrimAllOfTrimmed(lines[i..j]);
  }

  /**
   * splitCerts: the primary certificate is the text of the first PEM block,
   * from its BEGIN line through its END line; the chain is every later block,
   * and is absent when there is none.
   */
  lemma CertPartsFirstBlock(crt: string, b: nat, e: nat)
    requires FirstBlock(CertLines(crt), b, e)
    ensures CertPartsOf(crt).primary == Some(Join(CertLines(crt)[b..e + 1], '\n'))
    ensures CertPartsOf(crt).chain.None? <==> BlockLines(false, CertLines(crt)[e + 1..]) == []
    ensures NoBegin(CertLines(crt)[e + 1..]) ==> CertPartsOf(crt).chain.None?
  {
    var lines := CertLines(crt);
    FoldSplitsFirstBlock(lines, b, e);
    TrimAllOfCertLines(crt, b, e + 1);
    if NoBegin(lines[e + 1..]) {
      BlockLinesNone(false, lines[e + 1..]);
    }
  }

  /** Every line the loop appends is one of the lines it reads, trimmed. */
  lemma {:induction false} FoldLinesFrom(st: SplitState, lines: seq<string>, P: string -> bool)
    requires forall k :: 0 <= k < |lines| ==> P(TrimSpace(lines[k]))
    requires forall k :: 0 <= k < |st.primary| ==> P(st.primary[k])
    requires forall k :: 0 <= k < |st.chain| ==> P(st.chain[k])
    ensures forall k :: 0 <= k < |SplitFold(st, lines).primary| ==> P(SplitFold(st, lines).primary[k])
    ensures forall k :: 0 <= k < |SplitFold(st, lines).chain| ==> P(SplitFold(st, lines).chain[k])
    decreases |lines|
  {
    if lines != [] {
      FoldLinesFrom(SplitStep(st, lines[0]), lines[1..], P);
    }
  }

  /** Neither the primary certificate nor the chain has an empty line or ends in a newline. */
  lemma CertPartsNoTrailingNewline(crt: string)
    ensures CertPartsOf(crt).primary.Some? ==> var p := CertPartsOf(crt).primary.value;
      p != "" && p[|p| - 1] != '\n'
    ensures CertPartsOf(crt).chain.Some? ==> var c := CertPartsOf(crt).chain.value;
      c != "" && c[|c| - 1] != '\n'
  {
    var lines := CertLines(crt);
    var P := (line: string) => line != "" && '\n' !in line;
    StrippedLinesTrimmed(crt);
    var st := SplitFold(Initial, lines);
    if Stripped(crt) == "" {
      StrippedLines(crt);
      assert lines == [""];
      assert !IsBeginLine(lines[0]);
      FoldSkips(Initial, lines);
    } else {
      forall k | 0 <= k < |lines|
        ensures P(TrimSpace(lines[k]))
      {
        TrimSpaceOfTrimmed(lines[k]);
      }
      FoldLinesFrom(Initial, lines, P);
      if |st.primary| > 0 {
        JoinNoTrailingSeparator(st.primary, '\n');
      }
      if |st.chain| > 0 {
        JoinNoTrailingSeparator(st.chain, '\n');
      }
    }
  }

  /** splitCerts, over the lines of the stripped text. */
  method SplitCerts(crt: string) returns (parts: CertParts)
    ensures parts == CertPartsOf(crt)
  {
    var sanitized := StripSpaces(crt);
    var lines := Split(sanitized, '\n');
    var primary: seq<string> := [];
    var chain: seq<string> := [];
    var started := false;
    var iter: nat := 0;
    for i := 0 to |lines|
      invariant SplitFold(SplitState(started, iter, primary, chain), lines[i..]) == SplitFold(Initial, lines)
    {
      assert lines[i..][1..] == lines[i + 1..];
      var line := lines[i];
      if IsBeginLine(line) {
        started := true;
      }
      if !started {
        continue;
      }
      if iter == 0 {
        primary := primary + [TrimSpace(line)];
      } else {
        chain := chain + [TrimSpace(line)];
      }
      if IsEndLine(line) {
        started := false;
        iter := iter + 1;
      }
    }
    assert lines[|lines|..] == [];
    parts := PartsOf(SplitState(started, iter, primary, chain));
  }

  // ---------------------------------------------------------------- certificate checks

  /** findCertificate: the DER payload of the first PEM block, when it is a CERTIFICATE block. */
  function FindCertificate(codec: Codec, crt: string): (der: Option<seq<byte>>)
    ensures der.Some? <==> codec.pemDecode(crt).Some? && codec.pemDecode(crt).value.blockType == CertificateType
    ensures der.Some? ==> der.value == codec.pemDecode(crt).value.bytes
  {
    match codec.pemDecode(crt)
    case None => None
    case Some(block) => if block.blockType == CertificateType then Some(block.bytes) else None
  }

  const HexDigits := "0123456789abcdef"

  /** fmt's %x of a byte string: two lower-case hex digits per byte. */
  function Hex(bs: seq<byte>): (r: string)
    ensures |r| == 2 * |bs|
    ensures forall k :: 0 <= k < |r| ==> r[k] in HexDigits
  {
    if bs == [] then ""
    else [HexDigits[bs[0] as int / 16], HexDigits[bs[0] as int % 16]] + Hex(bs[1..])
  }

  lemma HexDigitsDistinct(i: nat, j: nat)
    requires i < 16 && j < 16 && HexDigits[i] == HexDigits[j]
    ensures i == j
  {
  }

  /** Distinct digests have distinct fingerprints. */
  lemma {:induction false} HexInjective(a: seq<byte>, b: seq<byte>)
    requires Hex(a) == Hex(b)
    ensures a == b
  {
    if a != [] {
      assert |b| == |a|;
      var x, y := a[0] as int, b[0] as int;
      assert Hex(a)[0] == Hex(b)[0] && Hex(a)[1] == Hex(b)[1];
      HexDigitsDistinct(x / 16, y / 16);
      HexDigitsDistinct(x % 16, y % 16);
      assert x == 16 * (x / 16) + x % 16 && y == 16 * (y / 16) + y % 16;
      assert a[0] == b[0];
      assert Hex(a)[2..] == Hex(a[1..]);
      assert Hex(b)[2..] == Hex(b[1..]);
      HexInjective(a[1..], b[1..]);
      assert a == [a[0]] + a[1..] && b == [b[0]] + b[1..];
    }
  }

  /** getPemFingerprint: the hex SHA-1 of the certificate's DER bytes, "" when there is none. */
  function GetPemFingerprint(codec: Codec, crt: string): (fp: string)
    ensures FindCertificate(codec, Stripped(crt)).None? ==> fp == ""
    ensures FindCertificate(codec, Stripped(crt)).Some? ==>
      fp == Hex(codec.sha1(FindCertificate(codec, Stripped(crt)).value))
  {
    match FindCertificate(codec, Stripped(crt))
    case Some(der) => Hex(codec.sha1(der))
    case None => ""
  }

  /**
   * The fingerprint is empty exactly when no certificate is found, is 40 hex
   * digits otherwise, and equal fingerprints mean equal digests.
   */
  lemma FingerprintShape(codec: Codec, crt: string)
    requires Sha1Sized(codec)
    ensures GetPemFingerprint(codec, crt) == "" <==> FindCertificate(codec, Stripped(crt)).None?
    ensures GetPemFingerprint(codec, crt) != "" ==> |GetPemFingerprint(codec, crt)| == 40
  {
    match FindCertificate(codec, Stripped(crt))
    case Some(der) => assert |codec.sha1(der)| == 20;
    case None =>
  }

  lemma FingerprintsIdentifyDigests(codec: Codec, a: string, b: string)
    requires FindCertificate(codec, Stripped(a)).Some? && FindCertificate(codec, Stripped(b)).Some?
    requires GetPemFingerprint(codec, a) == GetPemFingerprint(codec, b)
    ensures codec.sha1(FindCertificate(codec, Stripped(a)).value) == codec.sha1(FindCertificate(codec, Stripped(b)).value)
  {
    HexInjective(codec.sha1(FindCertificate(codec, Stripped(a)).value), codec.sha1(FindCertificate(codec, Stripped(b)).value));
  }

  /** The checks validateCertificate makes, in order; None when the certificate passes them all. */
  function ValidateCertificate(codec: Codec, crt: string): (err: Option<string>)
    ensures err.None? <==>
      (CertPartsOf(crt).primary.Some? &&
       codec.pemDecode(CertPartsOf(crt).primary.value).Some? &&
       codec.pemDecode(CertPartsOf(crt).primary.value).value.blockType == CertificateType &&
       codec.parseCertificate(codec.pemDecode(CertPartsOf(crt).primary.value).value.bytes).Ok? &&
       |codec.parseCertificate(codec.pemDecode(CertPartsOf(crt).primary.value).value.bytes).value.dnsNames| > 0)
  {
    match CertPartsOf(crt).primary
    case None => Some(NoCertificateError)
    case Some(primary) =>
      match codec.pemDecode(primary)
      case None => Some(NoCertificateError)
      case Some(block) =>
        if block.blockType != CertificateType then Some(WrongTypeError + block.blockType)
        else
          match codec.parseCertificate(block.bytes)
          case Err(e) => Some(ParseError + e)
          case Ok(cert) => if |cert.dnsNames| == 0 then Some(NoDnsNamesError) else None
  }

  /** A valid bundle has a primary certificate in which a CERTIFICATE block is found. */
  lemma ValidHasPrimary(codec: Codec, crt: string)
    requires ValidateCertificate(codec, crt).None?
    ensures CertPartsOf(crt).primary.Some?
    ensures FindCertificate(codec, CertPartsOf(crt).primary.value).Some?
  {
  }

  /** A bundle without any BEGIN line is rejected with the "can't find certificate" error. */
  lemma NoBlockIsRejected(codec: Codec, crt: string)
    requires NoBegin(CertLines(crt))
    ensures ValidateCertificate(codec, crt) == Some(NoCertificateError)
  {
    CertPartsNoBlock(crt);
  }

  // ---------------------------------------------------------------- provider certificates

  /** The provider's custom SSL certificate record. */
  datatype CustomCertificate = CustomCertificate(
    id: string, name: string, sha1Fingerprint: string, labels: map<string, string>,
    expires: string, created: string, updated: string,
    publicKey: string, privateKey: string, chainKey: Option<string>)

  /** The provider's generic SSL certificate view. */
  datatype SslCertificate = SslCertificate(
    id: string, name: string, sha1Fingerprint: string, labels: map<string, string>,
    expires: string, created: string, updated: string)

  /** customToSSLCertificate: the generic view of a custom record; the key material is not carried over. */
  function CustomToSslCertificate(c: CustomCertificate): (v: SslCertificate)
    ensures v.id == c.id && v.name == c.name && v.sha1Fingerprint == c.sha1Fingerprint && v.labels == c.labels
    ensures v.expires == c.expires && v.created == c.created && v.updated == c.updated
  {
    SslCertificate(c.id, c.name, c.sha1Fingerprint, c.labels, c.expires, c.created, c.updated)
  }

  /** Two records show the same view exactly when they agree outside the key material. */
  lemma CustomToSslCertificateForgetsKeys(c: CustomCertificate, d: CustomCertificate)
    ensures CustomToSslCertificate(c) == CustomToSslCertificate(d) <==>
      c.(publicKey := d.publicKey, privateKey := d.privateKey, chainKey := d.chainKey) == d
  {
  }
}
