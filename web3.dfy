/** IPFS address rewriting (lib/web3.ts): `ipfs://` URIs and gateway URLs
    of any host are rewritten onto the public ipfs.io gateway. */
module Web3 {
  import opened Text

  const Gateway: string := "https://ipfs.io/ipfs/"
  const IpfsScheme: string := "ipfs://"
  const IpfsSegment: string := "/ipfs/"

  /** An occurrence inside a suffix is an occurrence in the whole text. */
  lemma OccursInSuffix(s: string, p: string, k: nat, j: int)
    requires k <= |s|
    requires OccursAt(s[k..], p, j)
    ensures OccursAt(s, p, k + j)
  {
    assert s[k..][j..j + |p|] == s[k + j..k + j + |p|];
  }

  /** `s.replace(pattern, replacement)` with a string pattern: only the
      first occurrence is replaced. */
  function ReplaceFirst(s: string, pattern: string, replacement: string): (r: string)
    ensures !Contains(s, pattern) ==> r == s
    ensures StartsWith(s, pattern) ==> r == replacement + s[|pattern|..]
  {
    ContainsIffIndex(s, pattern);
    match IndexFrom(s, pattern, 0)
    case None => s
    case Some(i) =>
      assert StartsWith(s, pattern) ==> i == 0 by {
        if StartsWith(s, pattern) {
          assert OccursAt(s, pattern, 0);
        }
      }
      s[..i] + replacement + s[i + |pattern|..]
  }

  /** With no separator at or after `from`, the rest of the text holds none. */
  lemma NoSeparatorInRest(s: string, sep: string, from: nat)
    requires from <= |s|
    requires IndexFrom(s, sep, from).None?
    ensures !Contains(s[from..], sep)
  {
    var rest := s[from..];
    IndexFromIsFirst(s, sep, from);
    forall j | 0 <= j <= |rest| - |sep| && OccursAt(rest, sep, j)
      ensures false
    {
      OccursInSuffix(s, sep, from, j);
    }
  }

  /** Where the last element of `s[from..].split(sep)` starts: the scan for
      `sep` runs left to right and resumes after each separator it finds. */
  function LastPieceStart(s: string, sep: string, from: nat): (k: nat)
    requires |sep| > 0 && from <= |s|
    decreases |s| - from
    ensures from <= k <= |s|
  {
    match IndexFrom(s, sep, from)
    case None => from
    case Some(i) => LastPieceStart(s, sep, i + |sep|)
  }

  /** No separator occurs from the start of the last piece on. */
  lemma {:induction false} LastPieceHasNoSeparator(s: string, sep: string, from: nat)
    requires |sep| > 0 && from <= |s|
    decreases |s| - from
    ensures IndexFrom(s, sep, LastPieceStart(s, sep, from)).None?
  {
    var next := IndexFrom(s, sep, from);
    if next.Some? {
      LastPieceHasNoSeparator(s, sep, next.value + |sep|);
    }
  }

  /** When the scan finds a separator, the last piece directly follows one. */
  lemma {:induction false} LastPieceFollowsSeparator(s: string, sep: string, from: nat)
    requires |sep| > 0 && from <= |s|
    requires IndexFrom(s, sep, from).Some?
    decreases |s| - from
    ensures from + |sep| <= LastPieceStart(s, sep, from)
    ensures OccursAt(s, sep, LastPieceStart(s, sep, from) - |sep|)
  {
    var i := IndexFrom(s, sep, from).value;
    if IndexFrom(s, sep, i + |sep|).Some? {
      LastPieceFollowsSeparator(s, sep, i + |sep|);
    }
  }

  lemma OnGateway(path: string)
    ensures StartsWith(Gateway + path, Gateway)
    ensures (Gateway + path)[|Gateway|..] == path
  {
    assert (Gateway + path)[..|Gateway|] == Gateway;
  }

  /** The path an `ipfs://` URI names: the scheme removed, then one leading
      "ipfs/" if present. */
  function SchemePath(uri: string): (path: string)
    requires StartsWith(uri, IpfsScheme)
    ensures var rest := uri[|IpfsScheme|..];
      path == if StartsWith(rest, "ipfs/") then rest[5..] else rest
  {
    var cleaned := ReplaceFirst(uri, IpfsScheme, "");
    if StartsWith(cleaned, "ipfs/") then cleaned[5..] else cleaned
  }

  /** The path a gateway URL names: the last piece of its split on "/ipfs/",
      which follows a "/ipfs/" of the URL and holds none itself. */
  function SegmentPath(uri: string): (path: string)
    requires Contains(uri, IpfsSegment)
    ensures !Contains(path, IpfsSegment)
    ensures |path| + |IpfsSegment| <= |uri|
    ensures uri[|uri| - |path| - |IpfsSegment|..] == IpfsSegment + path
  {
    ContainsIffIndex(uri, IpfsSegment);
    var k := LastPieceStart(uri, IpfsSegment, 0);
    LastPieceHasNoSeparator(uri, IpfsSegment, 0);
    LastPieceFollowsSeparator(uri, IpfsSegment, 0);
    NoSeparatorInRest(uri, IpfsSegment, k);
    assert uri[k - |IpfsSegment|..] == uri[k - |IpfsSegment|..k] + uri[k..];
    uri[k..]
  }

  /** `resolveIpfs(uri)`: the empty text stays empty; anything else either
      comes back unchanged or is rewritten onto the gateway. */
  function ResolveIpfs(uri: string): (r: string)
    ensures uri == [] ==> r == []
    ensures r == uri || StartsWith(r, Gateway)
  {
    if uri == [] then []
    else if StartsWith(uri, IpfsScheme) then
      var path := SchemePath(uri);
      OnGateway(path);
      Gateway + path
    else if Contains(uri, IpfsSegment) then
      var path := SegmentPath(uri);
      OnGateway(path);
      Gateway + path
    else uri
  }

  /** An `ipfs://` URI goes to the gateway with the scheme and one leading
      "ipfs/" removed. */
  lemma ResolveSchemeUri(uri: string)
    requires StartsWith(uri, IpfsScheme)
    ensures var rest := uri[|IpfsScheme|..];
      ResolveIpfs(uri) == Gateway + (if StartsWith(rest, "ipfs/") then rest[5..] else rest)
  {
  }

  /** Any other URL with a "/ipfs/" segment goes to the gateway with the
      text after one of its "/ipfs/" segments, a text that holds no further
      "/ipfs/". */
  lemma {:induction false} ResolveGatewayUrl(uri: string)
    requires !StartsWith(uri, IpfsScheme) && Contains(uri, IpfsSegment)
    ensures StartsWith(ResolveIpfs(uri), Gateway)
    ensures var path := ResolveIpfs(uri)[|Gateway|..];
      !Contains(path, IpfsSegment)
      && |path| + |IpfsSegment| <= |uri|
      && uri[|uri| - |path| - |IpfsSegment|..] == IpfsSegment + path
  {
    var path := SegmentPath(uri);
    assert |uri| >= |IpfsSegment|;
    assert ResolveIpfs(uri) == Gateway + path;
    OnGateway(path);
  }

  /** Every other URI is returned as it is. */
  lemma ResolveOtherUri(uri: string)
    requires !StartsWith(uri, IpfsScheme) && !Contains(uri, IpfsSegment)
    ensures ResolveIpfs(uri) == uri
  {
  }

  /** `resolveImageUri`: the same rewriting as `resolveIpfs`. */
  function ResolveImageUri(uri: string): (r: string)
    ensures uri == [] ==> r == []
    ensures r == uri || StartsWith(r, Gateway)
  {
    ResolveIpfs(uri)
  }

  /** The gateway's own "/ipfs/" is the first occurrence of the segment in
      a gateway URL, at index 15, whatever follows. */
  lemma GatewaySegment(p: string)
    ensures IndexFrom(Gateway + p, IpfsSegment, 0) == Some(15)
  {
    var s := Gateway + p;
    IndexFromIsFirst(s, IpfsSegment, 0);
    assert s[15..21] == Gateway[15..21];
    assert OccursAt(s, IpfsSegment, 15);
    forall j | 0 <= j < 15
      ensures !OccursAt(s, IpfsSegment, j)
    {
      var k := if j == 6 then 1 else if j == 7 then 5 else 0;
      assert s[j + k] == Gateway[j + k];
      assert s[j..j + 6][k] != IpfsSegment[k];
    }
  }

  /** An occurrence after a prefix `q` is an occurrence in the rest `x`. */
  lemma OccursShift(q: string, x: string, p: string, j: nat)
    ensures OccursAt(q + x, p, |q| + j) <==> OccursAt(x, p, j)
  {
    if j + |p| <= |x| {
      assert (q + x)[|q| + j..|q| + j + |p|] == x[j..j + |p|];
    }
  }

  /** Searching past a prefix `q` is searching the rest `x`, shifted. */
  lemma {:induction false} IndexFromShift(q: string, x: string, p: string, from: nat)
    decreases |x| - from
    ensures IndexFrom(q + x, p, |q| + from)
            == match IndexFrom(x, p, from) case None => None case Some(i) => Some(|q| + i)
  {
    OccursShift(q, x, p, from);
    if from + |p| <= |x| && !OccursAt(x, p, from) {
      IndexFromShift(q, x, p, from + 1);
    }
  }

  /** A gateway URL whose path holds no "/ipfs/" is already resolved. */
  lemma {:induction false} GatewayUrlIsFixpoint(p: string)
    requires !Contains(p, IpfsSegment)
    ensures ResolveIpfs(Gateway + p) == Gateway + p
  {
    var s := Gateway + p;
    GatewaySegment(p);
    ContainsIffIndex(s, IpfsSegment);
    ContainsIffIndex(p, IpfsSegment);
    IndexFromShift(Gateway, p, IpfsSegment, 0);
    assert !StartsWith(s, IpfsScheme) by {
      assert s[0] == 'h';
    }
    assert LastPieceStart(s, IpfsSegment, 0) == LastPieceStart(s, IpfsSegment, 21) == 21;
    assert SegmentPath(s) == s[21..] == p;
  }

  /** Rewriting a gateway URL of any host is idempotent. */
  lemma {:induction false} ResolveIdempotentOnGatewayUrls(uri: string)
    requires !StartsWith(uri, IpfsScheme) && Contains(uri, IpfsSegment)
    ensures ResolveIpfs(ResolveIpfs(uri)) == ResolveIpfs(uri)
  {
    var r := ResolveIpfs(uri);
    ResolveGatewayUrl(uri);
    assert r == Gateway + r[|Gateway|..];
    GatewayUrlIsFixpoint(r[|Gateway|..]);
  }

  /** The example of overlapping separators: a host, "/ipfs/", then a path
      that itself starts with "ipfs/". */
  const OverlapHost: string := "https://x"
  const OverlapPath: string := "ipfs/abc"
  const OverlapExample: string := OverlapHost + IpfsSegment + OverlapPath

  /** One mismatching character rules out an occurrence. */
  lemma MismatchAt(s: string, p: string, i: nat, k: nat)
    requires k < |p| && i + k < |s| && s[i + k] != p[k]
    ensures !OccursAt(s, p, i)
  {
  }

  /** The first "/ipfs/" of the example is at index 9. */
  lemma OverlapFirstSeparator()
    ensures IndexFrom(OverlapExample, IpfsSegment, 0) == Some(9)
  {
    var s := OverlapExample;
    IndexFromIsFirst(s, IpfsSegment, 0);
    forall k | 0 <= k < |IpfsSegment|
      ensures s[9 + k] == IpfsSegment[k]
    {
      assert s[9 + k] == (OverlapHost + IpfsSegment)[9 + k];
    }
    assert OccursAt(s, IpfsSegment, 9);
    forall j | 0 <= j < 9
      ensures !OccursAt(s, IpfsSegment, j)
    {
      var k := if j == 6 || j == 7 then 1 else 0;
      assert s[j + k] == OverlapHost[j + k];
      MismatchAt(s, IpfsSegment, j, k);
    }
  }

  /** After that separator the example holds no other. */
  lemma OverlapNoSecondSeparator()
    ensures IndexFrom(OverlapExample, IpfsSegment, 15).None?
  {
    var s := OverlapExample;
    assert s[15..] == OverlapPath;
    MismatchAt(s, IpfsSegment, 15, 0);
    MismatchAt(s, IpfsSegment, 16, 0);
    MismatchAt(s, IpfsSegment, 17, 0);
    IndexFromIsFirst(s, IpfsSegment, 15);
  }

  /** Overlapping separators: in `https://x/ipfs/ipfs/abc` the split cuts
      after the first "/ipfs/" and then finds no other, so the path is
      `ipfs/abc`. */
  lemma OverlappingSeparators()
    ensures ResolveIpfs(OverlapExample) == Gateway + OverlapPath
  {
    var s := OverlapExample;
    assert !StartsWith(s, IpfsScheme) by {
      assert s[4] == OverlapHost[4];
    }
    OverlapFirstSeparator();
    OverlapNoSecondSeparator();
    ContainsIffIndex(s, IpfsSegment);
    assert LastPieceStart(s, IpfsSegment, 0) == LastPieceStart(s, IpfsSegment, 15) == 15;
    assert s[15..] == OverlapPath;
  }
}
