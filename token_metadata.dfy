/**
 * The token-metadata effect (src/handlers/utils/tokenMetadataEffect.ts) minus
 * its I/O: how a token's name, symbol, decimals and `supported` flag are
 * chosen from the native-token details, a configured override, or the five
 * ERC-20 reads, and how strings read from a contract are sanitised.
 */
module TokenMetadata {
  import opened Entities
  import opened Ids
  import opened Externals

  datatype Metadata = Metadata(name: string, symbol: string, decimals: int, supported: bool)

  const UnknownName: string := "unknown"
  const UnknownSymbol: string := "UNKNOWN"
  const DefaultDecimals: int := 18

  /** Printable ASCII, the range 0x20-0x7E that sanitising keeps. */
  predicate IsPrintable(c: char)
  {
    ' ' <= c <= '~'
  }

  /** The characters `String.prototype.trim` removes: white space and line terminators. */
  predicate IsTrimmable(c: char)
  {
    || c == '\t' || c == '\n' || c == '\U{000B}' || c == '\U{000C}' || c == '\r' || c == ' '
    || c == '\U{00A0}' || c == '\U{1680}' || '\U{2000}' <= c <= '\U{200A}'
    || c == '\U{2028}' || c == '\U{2029}' || c == '\U{202F}' || c == '\U{205F}'
    || c == '\U{3000}' || c == '\U{FEFF}'
  }

  /** Among printable characters only the space is trimmable. */
  lemma PrintableTrimmableIsSpace(c: char)
    requires IsPrintable(c)
    ensures IsTrimmable(c) <==> c == ' '
  {
  }

  /** The characters of `s` in the printable range, in order. */
  function StripNonPrintable(s: string): (r: string)
    ensures |r| <= |s|
    ensures forall i :: 0 <= i < |r| ==> IsPrintable(r[i])
    ensures forall i :: 0 <= i < |s| && IsPrintable(s[i]) ==> s[i] in r
    ensures (forall i :: 0 <= i < |s| ==> IsPrintable(s[i])) ==> r == s
    ensures |s| == 1 ==> r == if IsPrintable(s[0]) then s else []
  {
    if s == [] then []
    else
      var rest := StripNonPrintable(s[1..]);
      assert forall i :: 1 <= i < |s| ==> s[i] == s[1..][i - 1];
      if IsPrintable(s[0]) then [s[0]] + rest else rest
  }

  /**
   * Stripping works character by character: it distributes over
   * concatenation, so together with the one-character case it keeps exactly
   * the printable characters, in their order.
   */
  lemma {:induction false} StripNonPrintableAppend(a: string, b: string)
    ensures StripNonPrintable(a + b) == StripNonPrintable(a) + StripNonPrintable(b)
  {
    if a == [] {
      assert a + b == b;
    } else {
      assert (a + b)[0] == a[0];
      assert (a + b)[1..] == a[1..] + b;
      StripNonPrintableAppend(a[1..], b);
    }
  }

  /** `s` without its leading trimmable characters. */
  function TrimStart(s: string): (r: string)
    ensures |r| <= |s| && r == s[|s| - |r|..]
    ensures forall i :: 0 <= i < |s| - |r| ==> IsTrimmable(s[i])
    ensures |r| > 0 ==> !IsTrimmable(r[0])
  {
    if s != [] && IsTrimmable(s[0]) then TrimStart(s[1..]) else s
  }

  /** `s` without its trailing trimmable characters. */
  function TrimEnd(s: string): (r: string)
    ensures |r| <= |s| && r == s[..|r|]
    ensures forall i :: |r| <= i < |s| ==> IsTrimmable(s[i])
    ensures |r| > 0 ==> !IsTrimmable(r[|r| - 1])
  {
    if s != [] && IsTrimmable(s[|s| - 1]) then TrimEnd(s[..|s| - 1]) else s
  }

  /** Every character of `t` outside the positions `[i, j)` is a space. */
  predicate SpacesOutside(t: string, i: int, j: int)
    requires 0 <= i <= j <= |t|
  {
    forall k :: 0 <= k < |t| && (k < i || j <= k) ==> t[k] == ' '
  }

  /** Trimming keeps the positions `[i, j)` of `t` and removes only trimmable characters around them. */
  lemma TrimBounds(t: string) returns (i: int, j: int)
    ensures 0 <= i <= j <= |t| && TrimEnd(TrimStart(t)) == t[i..j]
    ensures forall k :: 0 <= k < |t| && (k < i || j <= k) ==> IsTrimmable(t[k])
  {
    var front := TrimStart(t);
    var trimmed := TrimEnd(front);
    i := |t| - |front|;
    j := i + |trimmed|;
    assert front == t[i..];
    assert trimmed == front[..|trimmed|];
    forall k | 0 <= k < |t| && j <= k
      ensures IsTrimmable(t[k])
    {
      assert t[k] == front[k - i];
    }
  }

  /** Trimming a printable string cuts off spaces at both ends and keeps the middle as it is. */
  lemma TrimmedIsSlice(t: string)
    requires forall k :: 0 <= k < |t| ==> IsPrintable(t[k])
    ensures exists i, j :: 0 <= i <= j <= |t| && TrimEnd(TrimStart(t)) == t[i..j] && SpacesOutside(t, i, j)
  {
    var i, j := TrimBounds(t);
    forall k | 0 <= k < |t| && (k < i || j <= k)
      ensures t[k] == ' '
    {
      PrintableTrimmableIsSpace(t[k]);
    }
    assert SpacesOutside(t, i, j);
  }

  /**
   * `sanitizeString`: the empty string stays empty; otherwise the characters
   * outside printable ASCII are removed and the result is trimmed. The
   * result is the stripped input with its leading and trailing spaces cut
   * off: printable ASCII, with no space at either end.
   */
  function SanitizeString(s: string): (r: string)
    ensures s == [] ==> r == []
    ensures exists i, j :: 0 <= i <= j <= |StripNonPrintable(s)| && r == StripNonPrintable(s)[i..j]
                           && SpacesOutside(StripNonPrintable(s), i, j)
    ensures forall i :: 0 <= i < |r| ==> IsPrintable(r[i])
    ensures |r| > 0 ==> r[0] != ' ' && r[|r| - 1] != ' '
  {
    if s == [] then
      assert SpacesOutside(StripNonPrintable(s), 0, 0);
      []
    else
      var stripped := StripNonPrintable(s);
      TrimmedIsSlice(stripped);
      TrimEnd(TrimStart(stripped))
  }

  /** A string that sanitising leaves alone: printable, and not starting or ending with a space. */
  lemma {:induction false} SanitizedIsFixed(s: string)
    requires forall i :: 0 <= i < |s| ==> IsPrintable(s[i])
    requires |s| > 0 ==> s[0] != ' ' && s[|s| - 1] != ' '
    ensures SanitizeString(s) == s
  {
    if s != [] {
      assert StripNonPrintable(s) == s;
      PrintableTrimmableIsSpace(s[0]);
      assert TrimStart(s) == s;
      PrintableTrimmableIsSpace(s[|s| - 1]);
      assert TrimEnd(s) == s;
    }
  }

  /** Sanitising is idempotent. */
  lemma SanitizeIdempotent(s: string)
    ensures SanitizeString(SanitizeString(s)) == SanitizeString(s)
  {
  }

  /** The bytes of a `bytes32` result without its zero bytes, in order. */
  function RemoveZeroBytes(b: seq<bv8>): (r: seq<bv8>)
    ensures |r| <= |b|
    ensures forall i :: 0 <= i < |r| ==> r[i] != 0
    ensures forall i :: 0 <= i < |b| && b[i] != 0 ==> b[i] in r
    ensures |b| == 1 ==> r == if b[0] != 0 then b else []
  {
    if b == [] then []
    else
      var rest := RemoveZeroBytes(b[1..]);
      assert forall i :: 1 <= i < |b| ==> b[i] == b[1..][i - 1];
      if b[0] != 0 then [b[0]] + rest else rest
  }

  /**
   * Removing zero bytes works byte by byte: it distributes over
   * concatenation, so together with the one-byte case it keeps exactly the
   * non-zero bytes, in their order and with their multiplicity.
   */
  lemma {:induction false} RemoveZeroBytesAppend(a: seq<bv8>, b: seq<bv8>)
    ensures RemoveZeroBytes(a + b) == RemoveZeroBytes(a) + RemoveZeroBytes(b)
  {
    if a == [] {
      assert a + b == b;
    } else {
      assert (a + b)[0] == a[0];
      assert (a + b)[1..] == a[1..] + b;
      RemoveZeroBytesAppend(a[1..], b);
    }
  }

  /**
   * The name or symbol chosen from a contract's reads: the string-typed read
   * when it succeeded, else the `bytes32` read with zero bytes removed and
   * decoded as text, else `fallback`; whichever was chosen is sanitised, and
   * an empty outcome becomes `fallback` too. A string read that sanitises to
   * nothing does not fall through to the `bytes32` read.
   */
  function ResolveText(read: Option<string>, bytes32Read: Option<seq<bv8>>, decode: seq<bv8> -> string,
                       fallback: string): (r: string)
    requires fallback != []
    ensures r != []
    ensures read.Some? ==>
      r == if SanitizeString(read.value) == [] then fallback else SanitizeString(read.value)
    ensures read.None? && bytes32Read.Some? ==>
      var decoded := SanitizeString(decode(RemoveZeroBytes(bytes32Read.value)));
      r == if decoded == [] then fallback else decoded
    ensures read.None? && bytes32Read.None? ==> r == fallback
    ensures r == fallback || (r[0] != ' ' && forall i :: 0 <= i < |r| ==> IsPrintable(r[i]))
  {
    var chosen :=
      if read.Some? then SanitizeString(read.value)
      else if bytes32Read.Some? then SanitizeString(decode(RemoveZeroBytes(bytes32Read.value)))
      else fallback;
    if chosen == [] then fallback else chosen
  }

  /**
   * The five ERC-20 reads, each `None` when the call was rejected (or, for
   * `decimals`, when it did not produce a number).
   */
  datatype Erc20Reads = Erc20Reads(
    name: Option<string>, nameBytes32: Option<seq<bv8>>,
    symbol: Option<string>, symbolBytes32: Option<seq<bv8>>,
    decimals: Option<int>)

  /** What the attempt to reach the token contract produced: its reads, or an exception. */
  datatype RpcOutcome = Answered(values: Erc20Reads) | Threw

  /**
   * The metadata assembled from the reads, as the effect does it: name and
   * symbol start at their fallbacks and are replaced by a successful read,
   * decimals default to 18.
   */
  method MetadataFromReads(answers: Erc20Reads, supported: bool, decode: seq<bv8> -> string) returns (m: Metadata)
    ensures m.name == ResolveText(answers.name, answers.nameBytes32, decode, UnknownName)
    ensures m.symbol == ResolveText(answers.symbol, answers.symbolBytes32, decode, UnknownSymbol)
    ensures m.decimals == if answers.decimals.Some? then answers.decimals.value else DefaultDecimals
    ensures m.supported == supported
  {
    var name := UnknownName;
    if answers.name.Some? {
      name := SanitizeString(answers.name.value);
    } else if answers.nameBytes32.Some? {
      name := SanitizeString(decode(RemoveZeroBytes(answers.nameBytes32.value)));
    }

    var symbol := UnknownSymbol;
    if answers.symbol.Some? {
      symbol := SanitizeString(answers.symbol.value);
    } else if answers.symbolBytes32.Some? {
      symbol := SanitizeString(decode(RemoveZeroBytes(answers.symbolBytes32.value)));
    }

    m := Metadata(
      if name == [] then UnknownName else name,
      if symbol == [] then UnknownSymbol else symbol,
      if answers.decimals.Some? then answers.decimals.value else DefaultDecimals,
      supported);
  }

  /** Whether a configured override is for `address`, ignoring letter case. */
  predicate OverrideMatches(o: TokenOverride, address: string)
  {
    ToLower(o.address) == ToLower(address)
  }

  /** `tokenOverrides.find`: the first override for `address`, if any. */
  function FindOverride(overrides: seq<TokenOverride>, address: string): (r: Option<TokenOverride>)
    ensures r.None? <==> forall i :: 0 <= i < |overrides| ==> !OverrideMatches(overrides[i], address)
    ensures r.Some? ==> exists i :: 0 <= i < |overrides| && overrides[i] == r.value
                                    && OverrideMatches(overrides[i], address)
                                    && forall j :: 0 <= j < i ==> !OverrideMatches(overrides[j], address)
  {
    if overrides == [] then None
    else if OverrideMatches(overrides[0], address) then Some(overrides[0])
    else
      var r := FindOverride(overrides[1..], address);
      assert forall i :: 1 <= i < |overrides| ==> overrides[i] == overrides[1..][i - 1];
      if r.None? then r
      else
        var k :| 0 <= k < |overrides[1..]| && overrides[1..][k] == r.value
                 && OverrideMatches(overrides[1..][k], address)
                 && forall j :: 0 <= j < k ==> !OverrideMatches(overrides[1..][j], address);
        assert overrides[k + 1] == r.value;
        r
  }

  /**
   * The effect's result when the metadata cache has nothing for the token.
   * `supported` is the same on every path: whether the lower-cased address
   * is in the supported list. The zero address takes the chain's native
   * token details; otherwise a configured override takes precedence over
   * the contract reads; an unknown chain or a failed contact yields the
   * unknown name and symbol with 18 decimals.
   */
  method GetTokenMetadata(address: string, supportedTokenAddresses: seq<string>, chainConfig: Option<ChainConfig>,
                          rpc: RpcOutcome, decode: seq<bv8> -> string) returns (m: Metadata)
    ensures m.supported == (ToLower(address) in supportedTokenAddresses)
    ensures chainConfig.None? ==> m == Metadata(UnknownName, UnknownSymbol, DefaultDecimals, m.supported)
    ensures chainConfig.Some? && ToLower(address) == ToLower(AddressZero) ==>
      var native := chainConfig.value.nativeTokenDetails;
      m == Metadata(native.name, native.symbol, native.decimals, m.supported)
    ensures chainConfig.Some? && ToLower(address) != ToLower(AddressZero)
            && FindOverride(chainConfig.value.tokenOverrides, address).Some? ==>
      var o := FindOverride(chainConfig.value.tokenOverrides, address).value;
      m == Metadata(o.name, o.symbol, o.decimals, m.supported)
    ensures chainConfig.Some? && ToLower(address) != ToLower(AddressZero)
            && FindOverride(chainConfig.value.tokenOverrides, address).None? ==>
      if rpc.Threw? then m == Metadata(UnknownName, UnknownSymbol, DefaultDecimals, m.supported)
      else && m.name == ResolveText(rpc.values.name, rpc.values.nameBytes32, decode, UnknownName)
           && m.symbol == ResolveText(rpc.values.symbol, rpc.values.symbolBytes32, decode, UnknownSymbol)
           && m.decimals == if rpc.values.decimals.Some? then rpc.values.decimals.value else DefaultDecimals
  {
    var supported := ToLower(address) in supportedTokenAddresses;
    var failed := Metadata(UnknownName, UnknownSymbol, DefaultDecimals, supported);
    if chainConfig.None? {
      return failed;
    }
    var config := chainConfig.value;
    if ToLower(address) == ToLower(AddressZero) {
      var native := config.nativeTokenDetails;
      return Metadata(native.name, native.symbol, native.decimals, supported);
    }
    var tokenOverride := FindOverride(config.tokenOverrides, address);
    if tokenOverride.Some? {
      var o := tokenOverride.value;
      return Metadata(o.name, o.symbol, o.decimals, supported);
    }
    if rpc.Threw? {
      return failed;
    }
    m := MetadataFromReads(rpc.values, supported, decode);
  }
}
