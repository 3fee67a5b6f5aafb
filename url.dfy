/**
 * The host the engine compares links against: the final URL without a leading
 * `http://` or `https://`, cut at its first '/'. This is plain string surgery, not URL parsing: port, user
 * information and letter case are kept as they stand.
 */
module Url {
  import opened JsString

  /** Length of the prefix `/^https?:\/\//` removes: 8, 7 or nothing. */
  function SchemeLength(u: string): (k: nat)
    ensures k <= |u|
    ensures k == 8 <==> StartsWith(u, "https://")
    ensures k == 7 <==> !StartsWith(u, "https://") && StartsWith(u, "http://")
    ensures k == 0 <==> !StartsWith(u, "https://") && !StartsWith(u, "http://")
  {
    if StartsWith(u, "https://") then 8 else if StartsWith(u, "http://") then 7 else 0
  }

  /** `s.split('/')[0]`: the longest prefix of `s` without '/'. */
  function UpToSlash(s: string): (r: string)
    ensures |r| <= |s| && r == s[..|r|]
    ensures forall i :: 0 <= i < |r| ==> r[i] != '/'
    ensures |r| == |s| || s[|r|] == '/'
  {
    if s == [] || s[0] == '/' then [] else [s[0]] + UpToSlash(s[1..])
  }

  function Host(finalUrl: string): string {
    UpToSlash(finalUrl[SchemeLength(finalUrl)..])
  }

  /** The host is the piece of the final URL right after its scheme prefix. */
  lemma HostFollowsScheme(finalUrl: string)
    ensures OccursAt(finalUrl, Host(finalUrl), SchemeLength(finalUrl))
    ensures forall i :: 0 <= i < |Host(finalUrl)| ==> Host(finalUrl)[i] != '/'
  {
    var k := SchemeLength(finalUrl);
    var h := Host(finalUrl);
    assert finalUrl[k..k + |h|] == finalUrl[k..][..|h|];
  }

  /** A link whose href starts with the final URL always includes its host, so it is never external. */
  lemma LinkUnderFinalUrlIncludesHost(href: string, finalUrl: string)
    requires StartsWith(href, finalUrl)
    ensures Includes(href, Host(finalUrl))
  {
    var k := SchemeLength(finalUrl);
    var h := Host(finalUrl);
    HostFollowsScheme(finalUrl);
    assert finalUrl[k..k + |h|] == h;
    IncludesPieceOfPrefix(href, finalUrl, k, k + |h|);
  }
}
