// Stellar asset-pair validation shared by the contracts: a pair is written
// "BASE/QUOTE", each side either a bare asset code ("XLM", "USDC") or
// "CODE:ISSUER" with a 56-character account id. The checks are byte scans over
// the string's bytes; each scan is a method proved equal to a specification
// function, and the lemmas below say what the specification accepts.

module Assets {
  import opened Base

  const SLASH: Byte := 47
  const COLON: Byte := 58
  const CODE_MIN_LEN: int := 1
  const CODE_MAX_LEN: int := 12
  const ACCOUNT_ID_LEN: int := 56

  datatype AssetPairError = InvalidFormat | InvalidAssetCode | InvalidIssuer | SameAssets

  /** An asset: its code, and its issuer unless it is native XLM. */
  datatype Asset = Asset(code: seq<Byte>, issuer: Option<Address>)

  datatype AssetPair = AssetPair(base: Asset, quote: Asset)

  // ---------------------------------------------------------------------------
  // Specification

  predicate IsAlnum(b: Byte)
  {
    (65 <= b <= 90) || (97 <= b <= 122) || (48 <= b <= 57)
  }

  /** The RFC 4648 section 6 base32 alphabet: A-Z and 2-7. */
  predicate IsBase32(b: Byte)
  {
    (65 <= b <= 90) || (50 <= b <= 55)
  }

  predicate ValidCode(s: seq<Byte>)
  {
    CODE_MIN_LEN <= |s| <= CODE_MAX_LEN && forall i :: 0 <= i < |s| ==> IsAlnum(s[i])
  }

  /** 'G' followed by 55 base32 characters. */
  predicate ValidIssuer(s: seq<Byte>)
  {
    |s| == ACCOUNT_ID_LEN && s[0] == 71 && forall i :: 1 <= i < |s| ==> IsBase32(s[i])
  }

  predicate IsNativeXlm(s: seq<Byte>)
  {
    s == [88, 76, 77]
  }

  /** The bytes `start..end` of `b`, empty when `end` is not past `start` (the sources'
      `end.saturating_sub(start)` lengths). */
  function Range(b: seq<Byte>, start: nat, end: nat): seq<Byte>
    requires start <= |b| && end <= |b|
  {
    if start <= end then b[start..end] else []
  }

  /** The verdict on one side of a pair. */
  function PartResult(p: seq<Byte>): Result<(), AssetPairError>
  {
    if p == [] then Err(InvalidFormat)
    else if COLON !in p then
      if IsNativeXlm(p) || ValidCode(p) then Ok(()) else Err(InvalidAssetCode)
    else
      var k := IndexOf(p, COLON);
      if !ValidCode(p[..k]) then Err(InvalidAssetCode)
      else if !ValidIssuer(p[k + 1..]) then Err(InvalidIssuer)
      else Ok(())
  }

  /** The verdict on a whole pair. */
  function PairResult(s: seq<Byte>): Result<(), AssetPairError>
  {
    if SLASH !in s then Err(InvalidFormat)
    else
      var k := IndexOf(s, SLASH);
      if SLASH in s[k + 1..] then Err(InvalidFormat)
      else if k == 0 || k >= |s| - 1 then Err(InvalidFormat)
      else if PartResult(s[..k]).Err? then PartResult(s[..k])
      else if PartResult(s[k + 1..]).Err? then PartResult(s[k + 1..])
      else if s[..k] == s[k + 1..] then Err(SameAssets)
      else Ok(())
  }

  // ---------------------------------------------------------------------------
  // The byte scans

  /** `validate_asset_code_bytes`. */
  method ValidateAssetCodeBytes(bytes: seq<Byte>, start: nat, end: nat) returns (ok: bool)
    requires start <= |bytes| && end <= |bytes|
    ensures ok == ValidCode(Range(bytes, start, end))
  {
    var len := SatSub(end, start);
    if len < CODE_MIN_LEN || len > CODE_MAX_LEN {
      return false;
    }
    var i := start;
    while i < end
      invariant start <= i <= end
      invariant forall j :: start <= j < i ==> IsAlnum(bytes[j])
    {
      if !IsAlnum(bytes[i]) {
        assert Range(bytes, start, end)[i - start] == bytes[i];
        return false;
      }
      i := i + 1;
    }
    assert forall j :: 0 <= j < end - start ==> Range(bytes, start, end)[j] == bytes[start + j];
    return true;
  }

  /** `validate_issuer_bytes`. */
  method ValidateIssuerBytes(bytes: seq<Byte>, start: nat, end: nat) returns (ok: bool)
    requires start <= |bytes| && end <= |bytes|
    ensures ok == ValidIssuer(Range(bytes, start, end))
  {
    var len := SatSub(end, start);
    if len != ACCOUNT_ID_LEN {
      return false;
    }
    if bytes[start] != 71 {
      return false;
    }
    var i := start + 1;
    while i < end
      invariant start + 1 <= i <= end
      invariant forall j :: start + 1 <= j < i ==> IsBase32(bytes[j])
    {
      if !IsBase32(bytes[i]) {
        assert Range(bytes, start, end)[i - start] == bytes[i];
        return false;
      }
      i := i + 1;
    }
    assert forall j :: 0 <= j < end - start ==> Range(bytes, start, end)[j] == bytes[start + j];
    return true;
  }

  /** `is_native_xlm`. */
  function IsNativeXlmAt(bytes: seq<Byte>, start: nat, end: nat): (r: bool)
    requires start <= |bytes| && end <= |bytes|
    ensures r == IsNativeXlm(Range(bytes, start, end))
  {
    if SatSub(end, start) != 3 then false
    else
      assert Range(bytes, start, end) == [bytes[start], bytes[start + 1], bytes[start + 2]];
      bytes[start] == 88 && bytes[start + 1] == 76 && bytes[start + 2] == 77
  }

  /** The colon search of `validate_asset_part`: the first ':' in `start..end`, if any. */
  method FindColon(bytes: seq<Byte>, start: nat, end: nat) returns (colonAt: Option<nat>)
    requires start <= end <= |bytes|
    ensures colonAt.None? ==> forall j :: start <= j < end ==> bytes[j] != COLON
    ensures colonAt.Some? ==> (start <= colonAt.value < end && bytes[colonAt.value] == COLON
                               && forall j :: start <= j < colonAt.value ==> bytes[j] != COLON)
  {
    var i := start;
    while i < end
      invariant start <= i <= end
      invariant forall j :: start <= j < i ==> bytes[j] != COLON
    {
      if bytes[i] == COLON {
        return Some(i);
      }
      i := i + 1;
    }
    return None;
  }

  /** `validate_asset_part`. */
  method ValidateAssetPart(bytes: seq<Byte>, start: nat, end: nat) returns (r: Result<(), AssetPairError>)
    requires start <= |bytes| && end <= |bytes|
    ensures r == PartResult(Range(bytes, start, end))
  {
    if start >= end {
      return Err(InvalidFormat);
    }
    var colonAt := FindColon(bytes, start, end);
    match colonAt {
      case None =>
        NoColonPart(bytes, start, end);
        var isCode := ValidateAssetCodeBytes(bytes, start, end);
        if IsNativeXlmAt(bytes, start, end) || isCode {
          r := Ok(());
        } else {
          r := Err(InvalidAssetCode);
        }
      case Some(k) =>
        ColonPart(bytes, start, end, k);
        var isCode := ValidateAssetCodeBytes(bytes, start, k);
        if !isCode {
          return Err(InvalidAssetCode);
        }
        var isIssuer := ValidateIssuerBytes(bytes, k + 1, end);
        if !isIssuer {
          return Err(InvalidIssuer);
        }
        r := Ok(());
    }
  }

  lemma NoColonPart(bytes: seq<Byte>, start: nat, end: nat)
    requires start < end <= |bytes|
    requires forall j :: start <= j < end ==> bytes[j] != COLON
    ensures var p := Range(bytes, start, end);
            PartResult(p) == if IsNativeXlm(p) || ValidCode(p) then Ok(()) else Err(InvalidAssetCode)
  {
    var p := Range(bytes, start, end);
    forall j | 0 <= j < |p| ensures p[j] != COLON { assert p[j] == bytes[start + j]; }
  }

  lemma ColonPart(bytes: seq<Byte>, start: nat, end: nat, k: nat)
    requires start <= k < end <= |bytes| && bytes[k] == COLON
    requires forall j :: start <= j < k ==> bytes[j] != COLON
    ensures var p := Range(bytes, start, end);
            PartResult(p) == if !ValidCode(Range(bytes, start, k)) then Err(InvalidAssetCode)
                             else if !ValidIssuer(Range(bytes, k + 1, end)) then Err(InvalidIssuer)
                             else Ok(())
  {
    var p := Range(bytes, start, end);
    assert p[k - start] == COLON;
    forall j | 0 <= j < k - start ensures p[j] != COLON { assert p[j] == bytes[start + j]; }
    IndexOfUnique(p, COLON, k - start);
    assert Range(bytes, start, k) == p[..k - start];
    assert Range(bytes, k + 1, end) == p[k - start + 1..];
  }

  /** `ranges_equal`. */
  method RangesEqual(bytes: seq<Byte>, aStart: nat, aEnd: nat, bStart: nat, bEnd: nat) returns (eq: bool)
    requires aStart <= |bytes| && aEnd <= |bytes| && bStart <= |bytes| && bEnd <= |bytes|
    ensures eq == (Range(bytes, aStart, aEnd) == Range(bytes, bStart, bEnd))
  {
    var aLen := SatSub(aEnd, aStart);
    var bLen := SatSub(bEnd, bStart);
    if aLen != bLen {
      assert |Range(bytes, aStart, aEnd)| != |Range(bytes, bStart, bEnd)|;
      return false;
    }
    ghost var a, b := Range(bytes, aStart, aEnd), Range(bytes, bStart, bEnd);
    var i := 0;
    while i < aLen
      invariant 0 <= i <= aLen
      invariant forall j :: 0 <= j < i ==> a[j] == b[j]
    {
      assert a[i] == bytes[aStart + i] && b[i] == bytes[bStart + i];
      if bytes[aStart + i] != bytes[bStart + i] {
        return false;
      }
      i := i + 1;
    }
    return true;
  }

  /** `validate_asset_pair` on the bytes of the pair string. */
  method ValidateAssetPair(bytes: seq<Byte>) returns (r: Result<(), AssetPairError>)
    ensures r == PairResult(bytes)
  {
    var slashAt: Option<nat> := None;
    var i := 0;
    while i < |bytes|
      invariant 0 <= i <= |bytes|
      invariant slashAt.None? ==> forall j :: 0 <= j < i ==> bytes[j] != SLASH
      invariant slashAt.Some? ==> var k := slashAt.value;
        && k < i && bytes[k] == SLASH
        && (forall j :: 0 <= j < k ==> bytes[j] != SLASH)
        && (forall j :: k < j < i ==> bytes[j] != SLASH)
    {
      if bytes[i] == SLASH {
        if slashAt.Some? {
          var k := slashAt.value;
          IndexOfUnique(bytes, SLASH, k);
          assert bytes[k + 1..][i - k - 1] == SLASH;
          return Err(InvalidFormat);
        }
        slashAt := Some(i);
      }
      i := i + 1;
    }
    if slashAt.None? {
      assert SLASH !in bytes;
      return Err(InvalidFormat);
    }
    var k := slashAt.value;
    SingleSlash(bytes, k);
    var len := |bytes|;
    if k == 0 || k >= len - 1 {
      return Err(InvalidFormat);
    }
    assert Range(bytes, 0, k) == bytes[..k];
    assert Range(bytes, k + 1, len) == bytes[k + 1..];
    var base := ValidateAssetPart(bytes, 0, k);
    if base.Err? {
      return base;
    }
    var quote := ValidateAssetPart(bytes, k + 1, len);
    if quote.Err? {
      return quote;
    }
    var same := RangesEqual(bytes, 0, k, k + 1, len);
    if same {
      return Err(SameAssets);
    }
    r := Ok(());
  }

  // ---------------------------------------------------------------------------
  // Properties

  /** "XLM" is itself a valid asset code, so the native check never accepts anything more. */
  lemma NativeIsACode(p: seq<Byte>)
    ensures IsNativeXlm(p) ==> ValidCode(p)
  {
  }

  /** A side is accepted exactly when it is a bare 1-12 character alphanumeric code, or a
      valid code, a colon at its first colon, and a valid issuer after it. */
  lemma PartAccepted(p: seq<Byte>)
    ensures PartResult(p).Ok? <==>
            || (COLON !in p && ValidCode(p))
            || (exists k :: 0 <= k < |p| && p[k] == COLON && (forall j :: 0 <= j < k ==> p[j] != COLON)
                            && ValidCode(p[..k]) && ValidIssuer(p[k + 1..]))
  {
    if COLON in p {
      var k := IndexOf(p, COLON);
      forall k' | 0 <= k' < |p| && p[k'] == COLON && (forall j :: 0 <= j < k' ==> p[j] != COLON)
        ensures k' == k
      {
        IndexOfUnique(p, COLON, k');
      }
    }
  }

  /** A pair is accepted exactly when it has a single '/', neither first nor last, and two
      accepted sides that differ. */
  lemma PairAccepted(s: seq<Byte>)
    ensures PairResult(s).Ok? <==>
            exists k :: 0 < k < |s| - 1 && s[k] == SLASH && (forall j :: 0 <= j < |s| && j != k ==> s[j] != SLASH)
                        && PartResult(s[..k]).Ok? && PartResult(s[k + 1..]).Ok? && s[..k] != s[k + 1..]
  {
    if PairResult(s).Ok? {
      var k := IndexOf(s, SLASH);
      OnlySlash(s, k);
      assert 0 < k < |s| - 1 && PartResult(s[..k]).Ok? && PartResult(s[k + 1..]).Ok? && s[..k] != s[k + 1..];
    } else {
      forall k | 0 < k < |s| - 1 && s[k] == SLASH && (forall j :: 0 <= j < |s| && j != k ==> s[j] != SLASH)
        ensures !(PartResult(s[..k]).Ok? && PartResult(s[k + 1..]).Ok? && s[..k] != s[k + 1..])
      {
        SingleSlash(s, k);
      }
    }
  }

  /** A first slash with none after it is the only slash. */
  lemma OnlySlash(s: seq<Byte>, k: nat)
    requires k < |s| && s[k] == SLASH && (forall j :: 0 <= j < k ==> s[j] != SLASH) && SLASH !in s[k + 1..]
    ensures forall j :: 0 <= j < |s| && j != k ==> s[j] != SLASH
  {
    forall j | k < j < |s| ensures s[j] != SLASH { assert s[j] == s[k + 1..][j - k - 1]; }
  }

  /** The only slash is the first one, and none follows it. */
  lemma SingleSlash(s: seq<Byte>, k: nat)
    requires k < |s| && s[k] == SLASH && forall j :: 0 <= j < |s| && j != k ==> s[j] != SLASH
    ensures SLASH in s && IndexOf(s, SLASH) == k && SLASH !in s[k + 1..]
  {
    IndexOfUnique(s, SLASH, k);
    var rest := s[k + 1..];
    forall j | 0 <= j < |rest| ensures rest[j] != SLASH { assert rest[j] == s[k + 1 + j]; }
  }

  /** The base side is checked first: its error is the pair's error. The two sides'
      equality is only looked at once both are accepted. */
  lemma BaseErrorWins(s: seq<Byte>, k: nat)
    requires 0 < k < |s| - 1 && s[k] == SLASH && forall j :: 0 <= j < |s| && j != k ==> s[j] != SLASH
    ensures PartResult(s[..k]).Err? ==> PairResult(s) == PartResult(s[..k])
    ensures PartResult(s[..k]).Ok? && PartResult(s[k + 1..]).Err? ==> PairResult(s) == PartResult(s[k + 1..])
    ensures PairResult(s) == Err(SameAssets) <==> PartResult(s[..k]).Ok? && PartResult(s[k + 1..]).Ok? && s[..k] == s[k + 1..]
  {
    IndexOfUnique(s, SLASH, k);
    var rest := s[k + 1..];
    forall j | 0 <= j < |rest| ensures rest[j] != SLASH { assert rest[j] == s[k + 1 + j]; }
  }

  /** A pair written as two slash-free sides around one '/' is judged side by side:
      the base's error first, then the quote's, then equality of the sides. */
  lemma SplitPair(a: seq<Byte>, b: seq<Byte>)
    requires a != [] && b != [] && SLASH !in a && SLASH !in b
    ensures PairResult(a + [SLASH] + b) ==
            if PartResult(a).Err? then PartResult(a)
            else if PartResult(b).Err? then PartResult(b)
            else if a == b then Err(SameAssets)
            else Ok(())
  {
    var s := a + [SLASH] + b;
    var k := |a|;
    forall j | 0 <= j < k ensures s[j] != SLASH { assert s[j] == a[j]; }
    IndexOfUnique(s, SLASH, k);
    assert s[..k] == a;
    assert s[k + 1..] == b;
  }

  /** A side written as a colon-free code, ':' and an issuer is judged code first. */
  lemma SplitPart(code: seq<Byte>, issuer: seq<Byte>)
    requires COLON !in code
    ensures PartResult(code + [COLON] + issuer) ==
            if !ValidCode(code) then Err(InvalidAssetCode)
            else if !ValidIssuer(issuer) then Err(InvalidIssuer)
            else Ok(())
  {
    var p := code + [COLON] + issuer;
    var k := |code|;
    forall j | 0 <= j < k ensures p[j] != COLON { assert p[j] == code[j]; }
    IndexOfUnique(p, COLON, k);
    assert p[..k] == code;
    assert p[k + 1..] == issuer;
  }

  /** A side without a colon is judged as a bare code. */
  lemma PlainPart(p: seq<Byte>)
    requires p != [] && COLON !in p
    ensures PartResult(p) == if IsNativeXlm(p) || ValidCode(p) then Ok(()) else Err(InvalidAssetCode)
  {
  }

  /** "XLM" is an accepted side. */
  lemma XlmPart()
    ensures PartResult([88, 76, 77]) == Ok(())
  {
    PlainPart([88, 76, 77]);
  }

  predicate AllBase32(s: seq<Byte>)
  {
    forall i :: 0 <= i < |s| ==> IsBase32(s[i])
  }

  lemma AllBase32Concat(a: seq<Byte>, b: seq<Byte>)
    requires AllBase32(a) && AllBase32(b)
    ensures AllBase32(a + b)
  {
    forall i | 0 <= i < |a + b| ensures IsBase32((a + b)[i]) {
      if i < |a| {
        assert (a + b)[i] == a[i];
      } else {
        assert (a + b)[i] == b[i - |a|];
      }
    }
  }

  /** An account id holds neither '/' nor ':'. */
  lemma IssuerHasNoSeparator(issuer: seq<Byte>)
    requires ValidIssuer(issuer)
    ensures SLASH !in issuer && COLON !in issuer
  {
    forall j | 0 <= j < |issuer| ensures issuer[j] != SLASH && issuer[j] != COLON {
      if j > 0 {
        assert IsBase32(issuer[j]);
      }
    }
  }

  // ---------------------------------------------------------------------------
  // The unit tests of the validator

  lemma XlmUsdcAccepted()
    ensures PairResult(Ascii("XLM/USDC")) == Ok(())
  {
    var q: seq<Byte> := [85, 83, 68, 67];
    assert Ascii("XLM/USDC") == [88, 76, 77] + [SLASH] + q;
    XlmPart();
    PlainPart(q);
    assert ValidCode(q);
    SplitPair([88, 76, 77], q);
  }

  lemma SameAssetsRejected()
    ensures PairResult(Ascii("XLM/XLM")) == Err(SameAssets)
  {
    assert Ascii("XLM/XLM") == [88, 76, 77] + [SLASH] + [88, 76, 77];
    XlmPart();
    SplitPair([88, 76, 77], [88, 76, 77]);
  }

  lemma NoSlashRejected()
    ensures PairResult(Ascii("XLMUSDC")) == Err(InvalidFormat)
  {
    var s := Ascii("XLMUSDC");
    assert s == [88, 76, 77, 85, 83, 68, 67];
  }

  lemma SpecialCharRejected()
    ensures PairResult(Ascii("XLM/USD!")) == Err(InvalidAssetCode)
  {
    var q: seq<Byte> := [85, 83, 68, 33];
    assert Ascii("XLM/USD!") == [88, 76, 77] + [SLASH] + q;
    assert !IsAlnum(q[3]) && !IsNativeXlm(q);
    PlainPart(q);
    XlmPart();
    SplitPair([88, 76, 77], q);
  }

  /** "XLM/USDC:INVALID", written as its bytes piece by piece, gives InvalidIssuer. */
  lemma ShortIssuerRejected()
    ensures PairResult([88, 76, 77] + [SLASH] + ([85, 83, 68, 67] + [COLON] + [73, 78, 86, 65, 76, 73, 68])) == Err(InvalidIssuer)
  {
    var code: seq<Byte> := [85, 83, 68, 67];
    var issuer: seq<Byte> := [73, 78, 86, 65, 76, 73, 68];
    var q := code + [COLON] + issuer;
    assert !ValidIssuer(issuer) && ValidCode(code);
    SplitPart(code, issuer);
    assert SLASH !in q;
    XlmPart();
    SplitPair([88, 76, 77], q);
  }

  /** "XLM/USDC:" followed by any valid issuer is accepted. */
  lemma IssuedQuoteAccepted(issuer: seq<Byte>)
    requires ValidIssuer(issuer)
    ensures PairResult([88, 76, 77, 47, 85, 83, 68, 67, 58] + issuer) == Ok(())
  {
    var code: seq<Byte> := [85, 83, 68, 67];
    var q := code + [COLON] + issuer;
    assert [88, 76, 77, 47, 85, 83, 68, 67, 58] + issuer == [88, 76, 77] + [SLASH] + q;
    IssuerHasNoSeparator(issuer);
    assert SLASH !in q;
    assert ValidCode(code);
    SplitPart(code, issuer);
    XlmPart();
    assert q != [88, 76, 77] by {
      assert |q| > 3;
    }
    SplitPair([88, 76, 77], q);
  }

  /** The issuer of the validator's tests, "GDUKMGUGDZQK6YHYA5Z6AY2G4XDSZPSZ3SW5UN3ARVMO6QSRDWP5YLEX", is a valid account id. */
  lemma TestIssuerValid(issuer: seq<Byte>)
    requires issuer == [71, 68, 85, 75, 77, 71, 85, 71] + [68, 90, 81, 75, 54, 89, 72, 89] + [65, 53, 90, 54, 65, 89, 50, 71] + [52, 88, 68, 83, 90, 80, 83, 90] + [51, 83, 87, 53, 85, 78, 51, 65] + [82, 86, 77, 79, 54, 81, 83, 82] + [68, 87, 80, 53, 89, 76, 69, 88]
    ensures ValidIssuer(issuer)
  {
    var c0: seq<Byte> := [71, 68, 85, 75, 77, 71, 85, 71];
    var c1: seq<Byte> := [68, 90, 81, 75, 54, 89, 72, 89];
    var c2: seq<Byte> := [65, 53, 90, 54, 65, 89, 50, 71];
    var c3: seq<Byte> := [52, 88, 68, 83, 90, 80, 83, 90];
    var c4: seq<Byte> := [51, 83, 87, 53, 85, 78, 51, 65];
    var c5: seq<Byte> := [82, 86, 77, 79, 54, 81, 83, 82];
    var c6: seq<Byte> := [68, 87, 80, 53, 89, 76, 69, 88];
    assert AllBase32(c0) && AllBase32(c1) && AllBase32(c2) && AllBase32(c3);
    assert AllBase32(c4) && AllBase32(c5) && AllBase32(c6);
    AllBase32Concat(c0, c1);
    AllBase32Concat(c0 + c1, c2);
    AllBase32Concat(c0 + c1 + c2, c3);
    AllBase32Concat(c0 + c1 + c2 + c3, c4);
    AllBase32Concat(c0 + c1 + c2 + c3 + c4, c5);
    AllBase32Concat(c0 + c1 + c2 + c3 + c4 + c5, c6);
    assert issuer[0] == c0[0];
  }

  lemma EmptyBaseRejected()
    ensures PairResult(Ascii("/USDC")) == Err(InvalidFormat)
  {
    var s := Ascii("/USDC");
    assert s[0] == SLASH;
    assert IndexOf(s, SLASH) == 0;
  }
}
