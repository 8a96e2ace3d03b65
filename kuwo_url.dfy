/** The audio-target validator: the Kuwo host allowlist (the regular
    expression `/(^|\.)kuwo\.cn$/i`) and `normalizeKuwoUrl`, which accepts
    only allowlisted http/https URLs and switches them to plain `http:`. */
module KuwoUrl {
  import opened JsText

  /** A parsed absolute URL, reduced to what the handlers look at: the
      `protocol` (with its colon), the `hostname`, and everything else
      (credentials, port, path, query, fragment) as one opaque part. */
  datatype Url = Url(protocol: string, hostname: string, rest: string)

  const KuwoDomain: string := "kuwo.cn"

  /** The pattern literal `lit` (lower-case) matches `h` at position `j`,
      ignoring the case of ASCII letters as the `i` flag does. */
  predicate LiteralAt(h: string, j: nat, lit: string) {
    j + |lit| <= |h| && forall k :: 0 <= k < |lit| ==> LowerChar(h[j + k]) == lit[k]
  }

  /** A match of `(^|\.)kuwo\.cn$` that starts at position `i`: either the
      `^` alternative at the start of the input, or a dot at `i`; in both
      cases `kuwo.cn` must then run to the end of the input (`$`). */
  predicate MatchesAt(h: string, i: nat) {
    || (i == 0 && LiteralAt(h, 0, KuwoDomain) && |h| == |KuwoDomain|)
    || (i < |h| && h[i] == '.' && LiteralAt(h, i + 1, KuwoDomain) && i + 1 + |KuwoDomain| == |h|)
  }

  /** `isAllowedKuwoHost`: `RegExp.prototype.test` tries every start position. */
  predicate IsAllowedKuwoHost(hostname: string) {
    exists i: nat | i <= |hostname| :: MatchesAt(hostname, i)
  }

  lemma LiteralAtLower(h: string, j: nat, lit: string)
    requires j + |lit| <= |h|
    ensures LiteralAt(h, j, lit) <==> ToLower(h)[j..j + |lit|] == lit
  {
    var window := ToLower(h)[j..j + |lit|];
    assert forall k :: 0 <= k < |lit| ==> window[k] == LowerChar(h[j + k]);
  }

  lemma LowerDot(c: char)
    ensures LowerChar(c) == '.' <==> c == '.'
  {
  }

  /** The allowlist means: the host, lower-cased, is `kuwo.cn` or ends with
      `.kuwo.cn`. So `evilkuwo.cn` and `kuwo.cn.evil.com` are refused. */
  lemma AllowedHostIff(h: string)
    ensures IsAllowedKuwoHost(h) <==> ToLower(h) == "kuwo.cn" || EndsWith(ToLower(h), ".kuwo.cn")
  {
    if IsAllowedKuwoHost(h) {
      var i: nat :| i <= |h| && MatchesAt(h, i);
      MatchSound(h, i);
    }
    if ToLower(h) == "kuwo.cn" {
      ExactHostMatches(h);
    } else if EndsWith(ToLower(h), ".kuwo.cn") {
      SubdomainMatches(h);
    }
  }

  /** A match at any position means one of the two lower-case forms. */
  lemma MatchSound(h: string, i: nat)
    requires i <= |h| && MatchesAt(h, i)
    ensures ToLower(h) == "kuwo.cn" || EndsWith(ToLower(h), ".kuwo.cn")
  {
    var l := ToLower(h);
    if i == 0 && LiteralAt(h, 0, KuwoDomain) && |h| == |KuwoDomain| {
      LiteralAtLower(h, 0, KuwoDomain);
      assert l == l[0..7];
    } else {
      LiteralAtLower(h, i + 1, KuwoDomain);
      LowerDot(h[i]);
      assert l[i..] == [l[i]] + l[i + 1..i + 8];
    }
  }

  /** `kuwo.cn` in any letter case matches through the `^` alternative. */
  lemma ExactHostMatches(h: string)
    requires ToLower(h) == "kuwo.cn"
    ensures MatchesAt(h, 0)
  {
    LiteralAtLower(h, 0, KuwoDomain);
    assert ToLower(h)[0..7] == ToLower(h);
  }

  /** A host ending in `.kuwo.cn` matches at its last dot. */
  lemma SubdomainMatches(h: string)
    requires EndsWith(ToLower(h), ".kuwo.cn")
    ensures MatchesAt(h, |h| - 8)
  {
    var l := ToLower(h);
    var i := |h| - 8;
    assert l[i..] == ".kuwo.cn";
    assert l[i] == '.';
    LowerDot(h[i]);
    assert l[i + 1..i + 8] == KuwoDomain;
    LiteralAtLower(h, i + 1, KuwoDomain);
  }

  /** Look-alike hosts are refused; subdomains in any letter case pass. */
  lemma AllowlistExamples()
    ensures !IsAllowedKuwoHost("evilkuwo.cn")
    ensures !IsAllowedKuwoHost("kuwo.cn.evil.com")
    ensures IsAllowedKuwoHost("music.KUWO.cn")
  {
    var e := "evilkuwo.cn";
    AllowedHostIff(e);
    assert ToLower(e)[3] == 'l';
    var f := "kuwo.cn.evil.com";
    AllowedHostIff(f);
    assert ToLower(f)[|f| - 1] == 'm';
    var m := "music.KUWO.cn";
    assert MatchesAt(m, 5) by {
      assert m[5] == '.';
      assert LiteralAt(m, 6, KuwoDomain);
    }
  }

  /** `normalizeKuwoUrl`. `parse` is `new URL(rawUrl)`: None where the
      constructor throws. The host is checked first, then the scheme; on
      success only the protocol changes, to `http:`. */
  function NormalizeKuwoUrl(rawUrl: string, parse: string -> Option<Url>): (r: Option<Url>)
    ensures r.Some? <==>
              && parse(rawUrl).Some?
              && IsAllowedKuwoHost(parse(rawUrl).value.hostname)
              && (parse(rawUrl).value.protocol == "http:" || parse(rawUrl).value.protocol == "https:")
    ensures r.Some? ==>
              && r.value.protocol == "http:"
              && r.value.hostname == parse(rawUrl).value.hostname
              && r.value.rest == parse(rawUrl).value.rest
  {
    match parse(rawUrl)
    case None => None
    case Some(parsed) =>
      if !IsAllowedKuwoHost(parsed.hostname) then None
      else if parsed.protocol != "http:" && parsed.protocol != "https:" then None
      else Some(parsed.(protocol := "http:"))
  }

  /** Every accepted target is plain HTTP on `kuwo.cn` or one of its
      subdomains, whatever the input scheme was. */
  lemma NormalizedTargetIsKuwo(rawUrl: string, parse: string -> Option<Url>)
    requires NormalizeKuwoUrl(rawUrl, parse).Some?
    ensures var u := NormalizeKuwoUrl(rawUrl, parse).value;
            && u.protocol == "http:"
            && (ToLower(u.hostname) == "kuwo.cn" || EndsWith(ToLower(u.hostname), ".kuwo.cn"))
  {
    AllowedHostIff(NormalizeKuwoUrl(rawUrl, parse).value.hostname);
  }
}
