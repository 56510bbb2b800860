/** `ScrapeBluesky._strip_urls`: `re.sub(r'https?://\S+|www\.\S+', '', text)`. */
module Urls {
  import opened Text

  /** Length of the greedy `\S*` run at the front of `s`. */
  function NonSpaceRun(s: string): (n: nat)
    ensures n <= |s|
    ensures forall i :: 0 <= i < n ==> !IsSpace(s[i])
    ensures n < |s| ==> IsSpace(s[n])
  {
    if |s| > 0 && !IsSpace(s[0]) then 1 + NonSpaceRun(s[1..]) else 0
  }

  /** `s` begins with `lead` followed by at least one non-whitespace character. */
  predicate Introduces(s: string, lead: string)
  {
    |lead| < |s| && s[..|lead|] == lead && !IsSpace(s[|lead|])
  }

  /** The pattern matches at the front of `s`: `https://`, `http://` or `www.`, then `\S+`. */
  predicate UrlAt(s: string)
  {
    Introduces(s, "https://") || Introduces(s, "http://") || Introduces(s, "www.")
  }

  /** Length of the match at the front of `s` (0 when there is none). `\S+` is greedy and nothing
      follows it in the pattern, so a match runs to the next whitespace or to the end. */
  function MatchLength(s: string): (m: nat)
    ensures m <= |s|
    ensures m > 0 <==> UrlAt(s)
    ensures forall i :: 0 <= i < m ==> !IsSpace(s[i])
    ensures 0 < m < |s| ==> IsSpace(s[m])
  {
    if Introduces(s, "https://") then 8 + NonSpaceRun(s[8..])
    else if Introduces(s, "http://") then 7 + NonSpaceRun(s[7..])
    else if Introduces(s, "www.") then 4 + NonSpaceRun(s[4..])
    else 0
  }

  /** The substitution: scanning left to right, every match is deleted and the scan resumes after
      it; any other character is kept. */
  function StripUrls(s: string): (r: string)
    ensures |r| <= |s|
    decreases |s|
  {
    if s == [] then []
    else if UrlAt(s) then StripUrls(s[MatchLength(s)..])
    else [s[0]] + StripUrls(s[1..])
  }

  /** No position of `s` starts a match. */
  ghost predicate UrlFree(s: string)
  {
    forall i :: 0 <= i < |s| ==> !UrlAt(s[i..])
  }

  /** Whether a match starts at the front of a string depends only on its characters up to the first
      whitespace, so two strings that agree on a prefix `a`, one of which continues with whitespace
      (or stops), cannot differ in this way. */
  lemma {:induction false} UrlAtDependsOnPrefix(x: string, y: string, a: nat)
    requires a <= |x| && a <= |y| && x[..a] == y[..a]
    requires |y| == a || IsSpace(y[a])
    requires UrlAt(y)
    ensures UrlAt(x)
  {
    var lead := if Introduces(y, "https://") then "https://" else if Introduces(y, "http://") then "http://" else "www.";
    assert Introduces(y, lead);
    assert forall i :: 0 <= i < |lead| ==> !IsSpace(lead[i]);
    assert |lead| < a;
    assert x[..|lead| + 1] == y[..|lead| + 1] by {
      assert x[..|lead| + 1] == x[..a][..|lead| + 1];
      assert y[..|lead| + 1] == y[..a][..|lead| + 1];
    }
    assert x[..|lead|] == x[..|lead| + 1][..|lead|];
    assert y[..|lead|] == y[..|lead| + 1][..|lead|];
    assert x[|lead|] == x[..|lead| + 1][|lead|];
    assert y[|lead|] == y[..|lead| + 1][|lead|];
    assert Introduces(x, lead);
  }

  /** The output agrees with the input up to the first deleted match, and at that point it either
      ends or continues with whitespace (a match always stops in front of whitespace or at the end). */
  lemma {:induction false} StripUrlsShape(s: string) returns (k: nat)
    ensures k <= |s| && k <= |StripUrls(s)|
    ensures StripUrls(s)[..k] == s[..k]
    ensures |StripUrls(s)| == k || IsSpace(StripUrls(s)[k])
    decreases |s|
  {
    var r := StripUrls(s);
    if s == [] {
      k := 0;
    } else if UrlAt(s) {
      var m := MatchLength(s);
      var rest := s[m..];
      assert r == StripUrls(rest);
      if rest == [] {
        k := 0;
      } else {
        assert IsSpace(rest[0]);
        assert !UrlAt(rest);
        assert r == [rest[0]] + StripUrls(rest[1..]);
        k := 0;
      }
    } else {
      var k' := StripUrlsShape(s[1..]);
      var r' := StripUrls(s[1..]);
      assert r == [s[0]] + r';
      k := k' + 1;
      assert r[..k] == [s[0]] + r'[..k'];
      assert s[..k] == [s[0]] + s[1..][..k'];
      if |r| != k {
        assert r[k] == r'[k'];
      }
    }
  }

  /** The output contains no URL: every match is gone and deleting matches never creates a new one. */
  lemma {:induction false} StripUrlsIsUrlFree(s: string)
    ensures UrlFree(StripUrls(s))
    decreases |s|
  {
    var r := StripUrls(s);
    if s == [] {
    } else if UrlAt(s) {
      StripUrlsIsUrlFree(s[MatchLength(s)..]);
    } else {
      var r' := StripUrls(s[1..]);
      StripUrlsIsUrlFree(s[1..]);
      assert r == [s[0]] + r';
      forall i | 0 <= i < |r| ensures !UrlAt(r[i..]) {
        if i == 0 {
          var k := StripUrlsShape(s);
          if UrlAt(r) {
            UrlAtDependsOnPrefix(s, r, k);
          }
        } else {
          assert r[i..] == r'[i - 1..];
        }
      }
    }
  }

  /** Text without a URL is left unchanged. */
  lemma {:induction false} StripUrlsKeepsUrlFree(s: string)
    requires UrlFree(s)
    ensures StripUrls(s) == s
    decreases |s|
  {
    if s != [] {
      assert !UrlAt(s[0..]) && s[0..] == s;
      assert UrlFree(s[1..]) by {
        forall i | 0 <= i < |s[1..]| ensures !UrlAt(s[1..][i..]) {
          assert s[1..][i..] == s[i + 1..];
        }
      }
      StripUrlsKeepsUrlFree(s[1..]);
    }
  }

  /** Stripping URLs twice is stripping them once. */
  lemma StripUrlsIdempotent(s: string)
    ensures StripUrls(StripUrls(s)) == StripUrls(s)
  {
    StripUrlsIsUrlFree(s);
    StripUrlsKeepsUrlFree(StripUrls(s));
  }

  /** A stretch in front of which no match starts passes through unchanged. */
  lemma {:induction false} StripUrlsKeepsPrefix(s: string, n: nat)
    requires n <= |s|
    requires NoMatchBefore(s, n)
    ensures StripUrls(s) == s[..n] + StripUrls(s[n..])
    decreases n
  {
    if n == 0 {
      assert s[n..] == s;
    } else {
      var rest := s[1..];
      StripUrlsKeepsFirst(s, n);
      NoMatchBeforeShift(s, n);
      StripUrlsKeepsPrefix(rest, n - 1);
    }
  }

  /** No match starts at any of the first `n` positions of `s`. */
  ghost predicate NoMatchBefore(s: string, n: nat)
    requires n <= |s|
  {
    forall i :: 0 <= i < n ==> !UrlAt(s[i..])
  }

  lemma NoMatchBeforeShift(s: string, n: nat)
    requires 0 < n <= |s| && NoMatchBefore(s, n)
    ensures NoMatchBefore(s[1..], n - 1)
  {
    forall i | 0 <= i < n - 1 ensures !UrlAt(s[1..][i..]) {
      assert s[1..][i..] == s[i + 1..];
    }
  }

  /** A first character that does not start a match is kept. */
  lemma StripUrlsKeepsFirst(s: string, n: nat)
    requires 0 < n <= |s| && NoMatchBefore(s, n)
    ensures StripUrls(s) == [s[0]] + StripUrls(s[1..])
  {
    assert s[0..] == s;
    assert !UrlAt(s[0..]);
  }

  /** Every match starts with `ht` or `ww`. */
  lemma NoUrlAt(x: string)
    requires |x| >= 2 && !(x[0] == 'h' && x[1] == 't') && !(x[0] == 'w' && x[1] == 'w')
    ensures !UrlAt(x)
  {
    assert x[0] == x[..2][0] && x[1] == x[..2][1];
  }

  /** A match that covers exactly `url`, a stretch without whitespace followed by whitespace or the
      end, is deleted as a whole. */
  lemma StripUrlsDropsMatch(url: string, rest: string)
    requires UrlAt(url + rest)
    requires forall c :: c in url ==> !IsSpace(c)
    requires rest == [] || IsSpace(rest[0])
    ensures StripUrls(url + rest) == StripUrls(rest)
  {
    var s := url + rest;
    assert MatchLength(s) == |url| by {
      assert forall i :: 0 <= i < |url| ==> s[i] == url[i] && url[i] in url;
      assert |url| < |s| ==> s[|url|] == rest[0];
    }
    assert s[|url|..] == rest;
  }

  /** Plain text in front of a URL passes through unchanged: the case of the test sentence. */
  lemma PlainLeadKept(lead: string, rest: string)
    requires lead == "Check this out " || lead == " and "
    requires |rest| >= 1 && (rest[0] == 'h' || rest[0] == 'w')
    ensures StripUrls(lead + rest) == lead + StripUrls(rest)
  {
    var s := lead + rest;
    assert NoMatchBefore(s, |lead|) by {
      forall i | 0 <= i < |lead| ensures !UrlAt(s[i..]) {
        assert s[i..][0] == lead[i];
        assert s[i..][1] == if i + 1 < |lead| then lead[i + 1] else rest[0];
        assert i in {0, 1, 2, 3, 4, 5, 6, 7, 8, 9, 10, 11, 12, 13, 14};
        NoUrlAt(s[i..]);
      }
    }
    StripUrlsKeepsPrefix(s, |lead|);
    assert s[..|lead|] == lead && s[|lead|..] == rest;
  }

  /** The `www.` URL at the end of the test sentence vanishes. */
  lemma WwwUrlDropped(url: string)
    requires url == "www.test.com"
    ensures StripUrls(url) == []
  {
    assert url == url + [];
    assert UrlAt(url + []) by {
      assert (url + [])[..4] == "www." && (url + [])[4] == 't';
    }
    StripUrlsDropsMatch(url, []);
  }

  /** The tail of the test sentence: the `www.` URL at the end goes. */
  lemma ExampleTail(mid: string, url: string)
    requires mid == " and " && url == "www.test.com"
    ensures StripUrls(mid + url) == mid
  {
    PlainLeadKept(mid, url);
    WwwUrlDropped(url);
    assert mid + [] == mid;
  }

  /** The `https://` URL of the test sentence goes up to the space after it. */
  lemma ExampleHead(url: string, tail: string)
    requires url == "https://example.com" && |tail| > 0 && tail[0] == ' '
    ensures StripUrls(url + tail) == StripUrls(tail)
  {
    assert UrlAt(url + tail) by {
      assert (url + tail)[..8] == "https://" && (url + tail)[8] == 'e';
    }
    StripUrlsDropsMatch(url, tail);
  }

  /** The sentence of the URL-stripping test: both URL forms are removed and the text around them,
      spaces included, stays. */
  lemma StripUrlsExample(lead: string, url1: string, mid: string, url2: string)
    requires lead == "Check this out " && url1 == "https://example.com"
    requires mid == " and " && url2 == "www.test.com"
    ensures StripUrls(lead + url1 + mid + url2) == lead + mid
  {
    var tail := mid + url2;
    assert lead + url1 + mid + url2 == lead + (url1 + tail);
    assert (url1 + tail)[0] == 'h';
    PlainLeadKept(lead, url1 + tail);
    ExampleHead(url1, tail);
    ExampleTail(mid, url2);
  }
}
