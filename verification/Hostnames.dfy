/**
  An agent's public hostname: the slug printed for a name (services/agent_service.py) and the
  parser the ingress uses to get it back from a Host header (routers/ingress.py).
 */
module Hostnames {
  import opened Basics

  // ---------- Printing ----------

  predicate Alnum(c: char) {
    'a' <= c <= 'z' || '0' <= c <= '9'
  }

  function SkipOthers(s: string): (r: string)
    ensures |r| <= |s|
    ensures r != "" ==> Alnum(r[0])
  {
    if s == "" || Alnum(s[0]) then s else SkipOthers(s[1..])
  }

  /** Every maximal run of characters outside [a-z0-9] becomes one hyphen. */
  function Collapse(s: string): string
    decreases |s|
  {
    if s == "" then ""
    else if Alnum(s[0]) then [s[0]] + Collapse(s[1..])
    else "-" + Collapse(SkipOthers(s[1..]))
  }

  function StripLeft(s: string, c: char): string {
    if s != "" && s[0] == c then StripLeft(s[1..], c) else s
  }

  function StripRight(s: string, c: char): string {
    if s != "" && s[|s| - 1] == c then StripRight(s[..|s| - 1], c) else s
  }

  function Strip(s: string, c: char): string {
    StripRight(StripLeft(s, c), c)
  }

  function Take(s: string, n: nat): string {
    if |s| <= n then s else s[..n]
  }

  /** The readable part of a slug; `lowered` is the name after `str.lower`, whatever that yields. */
  function SlugStem(lowered: string): string {
    var stem := Strip(Take(Strip(Collapse(lowered), '-'), 40), '-');
    if stem == "" then "agent" else stem
  }

  function NewSlug(lowered: string, suffix: string): string {
    SlugStem(lowered) + "-" + suffix
  }

  function PublicHost(slug: string, base: string): string {
    slug + "." + base
  }

  // ---------- Parsing ----------

  function LowerChar(c: char): char {
    if 'A' <= c <= 'Z' || ('\U{C0}' <= c <= '\U{DE}' && c != '\U{D7}') then (c as int + 32) as char else c
  }

  /** `str.lower` on Latin-1 text, which is what HTTP headers are decoded to. */
  function Lower(s: string): (r: string)
    ensures |r| == |s|
    ensures forall i :: 0 <= i < |s| ==> r[i] == LowerChar(s[i])
  {
    seq(|s|, i requires 0 <= i < |s| => LowerChar(s[i]))
  }

  /** `s.split(":", 1)[0]` */
  function BeforeColon(s: string): string {
    if s == "" || s[0] == ':' then "" else [s[0]] + BeforeColon(s[1..])
  }

  predicate EndsWith(s: string, t: string) {
    |t| <= |s| && s[|s| - |t|..] == t
  }

  function SlugFromHost(host: string, base: Option<string>): Option<string> {
    if !Truthy(base) then None
    else
      var h := Lower(StripRight(BeforeColon(host), '.'));
      var suffix := "." + StripRight(Lower(base.value), '.');
      if !EndsWith(h, suffix) then None
      else
        var slug := h[..|h| - |suffix|];
        if slug == "" || '.' in slug then None else Some(slug)
  }

  // ---------- Slugs are DNS labels ----------

  predicate HyphensApart(s: string) {
    forall i :: 0 <= i < |s| - 1 ==> s[i] != '-' || s[i + 1] != '-'
  }

  predicate Hyphenated(s: string) {
    && (forall i :: 0 <= i < |s| ==> Alnum(s[i]) || s[i] == '-')
    && HyphensApart(s)
  }

  predicate Trimmed(s: string) {
    s != "" ==> s[0] != '-' && s[|s| - 1] != '-'
  }

  /**
    A host name label: section 2.3.1 of RFC 1035 with the leading digit allowed by section 2.1 of
    RFC 1123, within the 63 octets of section 2.3.4 of RFC 1035.
   */
  predicate DnsLabel(s: string) {
    1 <= |s| <= 63 && Trimmed(s) && forall i :: 0 <= i < |s| ==> Alnum(s[i]) || s[i] == '-'
  }

  lemma {:induction false} CollapseIsHyphenated(s: string)
    ensures Hyphenated(Collapse(s))
    ensures s != "" && Alnum(s[0]) ==> Collapse(s) != "" && Collapse(s)[0] != '-'
    decreases |s|
  {
    if s != "" {
      var rest := if Alnum(s[0]) then s[1..] else SkipOthers(s[1..]);
      CollapseIsHyphenated(rest);
      var head := if Alnum(s[0]) then s[0] else '-';
      var r := [head] + Collapse(rest);
      assert Collapse(s) == r;
      forall i | 0 <= i < |r| - 1 ensures r[i] != '-' || r[i + 1] != '-' {
        if i > 0 {
          assert r[i] == Collapse(rest)[i - 1] && r[i + 1] == Collapse(rest)[i];
        }
      }
    }
  }

  lemma {:induction false} StripLeftIsSuffix(s: string, c: char) returns (i: nat)
    ensures i <= |s| && StripLeft(s, c) == s[i..]
    ensures forall j :: 0 <= j < i ==> s[j] == c
    ensures i < |s| ==> s[i] != c
  {
    if s != "" && s[0] == c {
      var j := StripLeftIsSuffix(s[1..], c);
      i := j + 1;
      assert s[1..][j..] == s[i..];
      assert forall k :: 0 < k < i ==> s[k] == s[1..][k - 1];
      assert i < |s| ==> s[i] == s[1..][j];
    } else {
      i := 0;
    }
  }

  lemma {:induction false} StripRightIsPrefix(s: string, c: char) returns (i: nat)
    ensures i <= |s| && StripRight(s, c) == s[..i]
    ensures forall j :: i <= j < |s| ==> s[j] == c
    ensures i > 0 ==> s[i - 1] != c
  {
    if s != "" && s[|s| - 1] == c {
      i := StripRightIsPrefix(s[..|s| - 1], c);
      assert s[..|s| - 1][..i] == s[..i];
    } else {
      i := |s|;
    }
  }

  /** Both ends of a stripped string are clear, and what is left is a run of the original. */
  lemma StripIsSlice(s: string, c: char) returns (i: nat, j: nat)
    ensures i <= j <= |s| && Strip(s, c) == s[i..j]
    ensures forall k :: 0 <= k < i || j <= k < |s| ==> s[k] == c
    ensures i < j ==> s[i] != c && s[j - 1] != c
  {
    i := StripLeftIsSuffix(s, c);
    var n := StripRightIsPrefix(s[i..], c);
    j := i + n;
    assert s[i..][..n] == s[i..j];
    assert forall k :: j <= k < |s| ==> s[k] == s[i..][k - i];
    assert n > 0 ==> s[j - 1] == s[i..][n - 1];
  }

  lemma StemIsTidy(lowered: string)
    ensures var stem := SlugStem(lowered); 1 <= |stem| <= 40 && Hyphenated(stem) && Trimmed(stem)
  {
    CollapseIsHyphenated(lowered);
    StripIsTidy(Collapse(lowered));
    var all := Strip(Collapse(lowered), '-');
    SliceIsHyphenated(all, 0, if |all| <= 40 then |all| else 40);
    assert all[0..|all|] == all;
    StripIsTidy(Take(all, 40));
  }

  lemma SliceIsHyphenated(s: string, i: nat, j: nat)
    requires Hyphenated(s) && i <= j <= |s|
    ensures Hyphenated(s[i..j])
  {
  }

  lemma StripIsTidy(s: string)
    requires Hyphenated(s)
    ensures Hyphenated(Strip(s, '-')) && Trimmed(Strip(s, '-')) && |Strip(s, '-')| <= |s|
  {
    var i, j := StripIsSlice(s, '-');
    SliceIsHyphenated(s, i, j);
  }

  /** Whatever the name, its slug is a DNS label of at most 47 characters without doubled hyphens. */
  lemma SlugIsDnsLabel(lowered: string, suffix: string)
    requires |suffix| == 6 && forall i :: 0 <= i < 6 ==> Alnum(suffix[i])
    ensures DnsLabel(NewSlug(lowered, suffix)) && |NewSlug(lowered, suffix)| <= 47
    ensures HyphensApart(NewSlug(lowered, suffix))
  {
    StemIsTidy(lowered);
    var stem := SlugStem(lowered);
    var slug := NewSlug(lowered, suffix);
    var n := |stem|;
    assert forall i :: 0 <= i < n ==> slug[i] == stem[i];
    assert slug[n] == '-';
    assert forall i :: n < i < |slug| ==> slug[i] == suffix[i - n - 1];
  }

  /** The letters and digits of a string, in order. */
  function Letters(s: string): string {
    if s == "" then "" else (if Alnum(s[0]) then [s[0]] else "") + Letters(s[1..])
  }

  lemma {:induction false} LettersConcat(a: string, b: string)
    ensures Letters(a + b) == Letters(a) + Letters(b)
  {
    if a == "" {
      assert a + b == b;
    } else {
      var head := if Alnum(a[0]) then [a[0]] else "";
      assert (a + b)[1..] == a[1..] + b;
      LettersConcat(a[1..], b);
      assert Letters(a + b) == head + Letters(a[1..] + b);
      assert head + (Letters(a[1..]) + Letters(b)) == (head + Letters(a[1..])) + Letters(b);
    }
  }

  lemma {:induction false} NoLetters(s: string)
    requires forall i :: 0 <= i < |s| ==> !Alnum(s[i])
    ensures Letters(s) == ""
  {
    if s != "" {
      NoLetters(s[1..]);
    }
  }

  lemma {:induction false} SkipKeepsLetters(s: string)
    ensures Letters(SkipOthers(s)) == Letters(s)
  {
    if s != "" && !Alnum(s[0]) {
      SkipKeepsLetters(s[1..]);
    }
  }

  lemma {:induction false} CollapseKeepsLetters(s: string)
    ensures Letters(Collapse(s)) == Letters(s)
    decreases |s|
  {
    if s != "" {
      if Alnum(s[0]) {
        CollapseKeepsLetters(s[1..]);
        assert Collapse(s)[1..] == Collapse(s[1..]);
      } else {
        CollapseKeepsLetters(SkipOthers(s[1..]));
        SkipKeepsLetters(s[1..]);
        assert Collapse(s)[1..] == Collapse(SkipOthers(s[1..]));
      }
    }
  }

  lemma StripKeepsLetters(s: string)
    ensures Letters(Strip(s, '-')) == Letters(s)
  {
    var i, j := StripIsSlice(s, '-');
    assert s == s[..i] + s[i..j] + s[j..];
    LettersConcat(s[..i] + s[i..j], s[j..]);
    LettersConcat(s[..i], s[i..j]);
    NoLetters(s[..i]);
    NoLetters(s[j..]);
  }

  /** The slug spells a prefix of the name's letters and digits; without any, it says "agent". */
  lemma SlugSpellsName(lowered: string)
    ensures Letters(lowered) == "" ==> SlugStem(lowered) == "agent"
    ensures Letters(lowered) != "" ==> Letters(SlugStem(lowered)) != "" && Letters(SlugStem(lowered)) <= Letters(lowered)
  {
    var all := Strip(Collapse(lowered), '-');
    var cut := Take(all, 40);
    var stem := Strip(cut, '-');
    CollapseKeepsLetters(lowered);
    StripKeepsLetters(Collapse(lowered));
    StripKeepsLetters(cut);
    assert all == cut + all[|cut|..];
    LettersConcat(cut, all[|cut|..]);
    CollapseIsHyphenated(lowered);
    var i, j := StripIsSlice(Collapse(lowered), '-');
    assert all != "" ==> Alnum(all[0]) && Letters(all) != "";
    if Letters(lowered) != "" {
      assert cut[0] == all[0] && Letters(cut) != "";
    }
  }

  /** A name that already is a short tidy label is kept letter for letter. */
  lemma TidyNamesAreKept(name: string)
    requires 1 <= |name| <= 40 && Hyphenated(name) && Trimmed(name)
    ensures SlugStem(name) == name
  {
    CollapseFixesTidy(name);
    var i, j := StripIsSlice(name, '-');
    assert i == 0 && j == |name|;
  }

  lemma {:induction false} CollapseFixesTidy(s: string)
    requires Hyphenated(s)
    requires s != "" ==> s[|s| - 1] != '-'
    ensures Collapse(s) == s
  {
    if s != "" {
      assert Hyphenated(s[1..]) by {
        assert forall i :: 0 <= i < |s| - 1 ==> s[1..][i] == s[i + 1];
      }
      CollapseFixesTidy(s[1..]);
      if !Alnum(s[0]) {
        assert s[1] != '-' && Alnum(s[1..][0]);
        assert SkipOthers(s[1..]) == s[1..];
      }
    }
  }

  // ---------- The parser undoes the printer ----------

  /** What the parser makes of a host before looking for the base domain. */
  function Canonical(host: string): string {
    Lower(StripRight(BeforeColon(host), '.'))
  }

  predicate OnlyDots(s: string) {
    forall i :: 0 <= i < |s| ==> s[i] == '.'
  }

  /** Labels the parser can return: nonempty, lower case, without dots or colons. */
  predicate HostLabel(s: string) {
    s != "" && '.' !in s && ':' !in s && Lower(s) == s
  }

  lemma {:induction false} BeforeColonOfColonFree(s: string, port: string)
    requires ':' !in s && (port == "" || port[0] == ':')
    ensures BeforeColon(s + port) == s
  {
    if s != "" {
      assert (s + port)[1..] == s[1..] + port;
      BeforeColonOfColonFree(s[1..], port);
    } else {
      assert s + port == port;
    }
  }

  lemma {:induction false} BeforeColonIsColonFree(s: string)
    ensures ':' !in BeforeColon(s)
  {
    if s != "" && s[0] != ':' {
      BeforeColonIsColonFree(s[1..]);
    }
  }

  lemma {:induction false} StripRightDots(s: string, dots: string)
    requires OnlyDots(dots)
    ensures StripRight(s + dots, '.') == StripRight(s, '.')
  {
    if dots == "" {
      assert s + dots == s;
    } else {
      assert (s + dots)[..|s + dots| - 1] == s + dots[..|dots| - 1];
      StripRightDots(s, dots[..|dots| - 1]);
    }
  }

  /** Stripping the end of a concatenation whose last part has something to keep touches only that part. */
  lemma StripRightOfConcat(a: string, b: string)
    requires !OnlyDots(b)
    ensures StripRight(a + b, '.') == a + StripRight(b, '.')
    ensures StripRight(b, '.') != ""
  {
    var i := StripRightIsPrefix(b, '.');
    assert i > 0;
    assert b == b[..i] + b[i..] && a + b == (a + b[..i]) + b[i..];
    StripRightDots(a + b[..i], b[i..]);
    assert (a + b[..i])[|a| + i - 1] == b[i - 1];
  }

  lemma StripRightLower(s: string)
    ensures StripRight(Lower(s), '.') == Lower(StripRight(s, '.'))
    decreases |s|
  {
    if s != "" && s[|s| - 1] == '.' {
      assert Lower(s)[..|s| - 1] == Lower(s[..|s| - 1]);
      StripRightLower(s[..|s| - 1]);
    }
  }

  lemma LowerConcat(a: string, b: string)
    ensures Lower(a + b) == Lower(a) + Lower(b)
  {
  }

  lemma CanonicalPublicHost(slug: string, base: string)
    requires HostLabel(slug) && ':' !in base && !OnlyDots(base)
    ensures Canonical(PublicHost(slug, base)) == slug + "." + StripRight(Lower(base), '.')
  {
    var host := PublicHost(slug, base);
    assert BeforeColon(host) == host by {
      assert host + "" == host;
      BeforeColonOfColonFree(host, "");
    }
    assert StripRight(host, '.') == slug + "." + StripRight(base, '.') by {
      StripRightOfConcat(slug + ".", base);
    }
    assert Lower(slug + "." + StripRight(base, '.')) == slug + "." + Lower(StripRight(base, '.')) by {
      LowerConcat(slug + ".", StripRight(base, '.'));
      LowerConcat(slug, ".");
    }
    StripRightLower(base);
  }

  /** What is left of a host is lower case, has no colon and does not end in a dot. */
  lemma CanonicalShape(host: string)
    ensures var h := Canonical(host);
            && (forall i :: 0 <= i < |h| ==> h[i] != ':' && LowerChar(h[i]) == h[i])
            && (h != "" ==> h[|h| - 1] != '.')
  {
    var cut := BeforeColon(host);
    BeforeColonIsColonFree(host);
    var n := StripRightIsPrefix(cut, '.');
    var h := Canonical(host);
    forall i | 0 <= i < |h| ensures h[i] == LowerChar(cut[i]) && cut[i] != ':' {
      assert cut[i] in cut;
    }
  }

  lemma ParsedIsPrinted(host: string, base: string, slug: string)
    requires ':' !in base && !OnlyDots(base) && SlugFromHost(host, Some(base)) == Some(slug)
    ensures HostLabel(slug) && Canonical(host) == Canonical(PublicHost(slug, base))
  {
    var h := Canonical(host);
    assert h == slug + ("." + StripRight(Lower(base), '.'));
    CanonicalPrefix(host, slug);
    CanonicalPublicHost(slug, base);
  }

  /** What a canonical host begins with is lower case and has no colon. */
  lemma CanonicalPrefix(host: string, slug: string)
    requires slug <= Canonical(host)
    ensures Lower(slug) == slug && ':' !in slug
  {
    CanonicalShape(host);
    assert forall i :: 0 <= i < |slug| ==> slug[i] == Canonical(host)[i];
  }

  lemma PrintedIsParsed(host: string, base: string, slug: string)
    requires ':' !in base && !OnlyDots(base)
    requires HostLabel(slug) && Canonical(host) == Canonical(PublicHost(slug, base))
    ensures SlugFromHost(host, Some(base)) == Some(slug)
  {
    CanonicalPublicHost(slug, base);
    var h := Canonical(host);
    var suffix := "." + StripRight(Lower(base), '.');
    assert h == slug + suffix;
    assert h[|h| - |suffix|..] == suffix && h[..|h| - |suffix|] == slug;
  }

  /** The parser accepts exactly the spellings of a printed host, and returns the label it was printed for. */
  lemma ParserInvertsPrinter(host: string, base: string, slug: string)
    requires ':' !in base && !OnlyDots(base)
    ensures SlugFromHost(host, Some(base)) == Some(slug) <==>
            HostLabel(slug) && Canonical(host) == Canonical(PublicHost(slug, base))
  {
    if SlugFromHost(host, Some(base)) == Some(slug) {
      ParsedIsPrinted(host, base, slug);
    }
    if HostLabel(slug) && Canonical(host) == Canonical(PublicHost(slug, base)) {
      PrintedIsParsed(host, base, slug);
    }
  }

  /** Any letter case, any trailing dots and any port spell the same host. */
  lemma SpellingsAgree(host: string, spelled: string, dots: string, port: string)
    requires ':' !in host && Lower(spelled) == Lower(host)
    requires OnlyDots(dots) && (port == "" || port[0] == ':')
    ensures Canonical(spelled + dots + port) == Canonical(host)
  {
    assert ':' !in spelled by {
      forall i | 0 <= i < |spelled| ensures spelled[i] != ':' {
        assert Lower(spelled)[i] == Lower(host)[i] && host[i] in host;
      }
    }
    BeforeColonOfColonFree(spelled + dots, port);
    assert host + "" == host;
    BeforeColonOfColonFree(host, "");
    StripRightDots(spelled, dots);
    StripRightLower(spelled);
    StripRightLower(host);
  }

  /** Round trip: whatever way a client spells an agent's public host, the ingress gets its slug back. */
  lemma RoundTrip(slug: string, base: string, spelled: string, dots: string, port: string)
    requires HostLabel(slug) && ':' !in base && !OnlyDots(base)
    requires Lower(spelled) == Lower(PublicHost(slug, base))
    requires OnlyDots(dots) && (port == "" || port[0] == ':')
    ensures SlugFromHost(spelled + dots + port, Some(base)) == Some(slug)
  {
    SpellingsAgree(PublicHost(slug, base), spelled, dots, port);
    ParserInvertsPrinter(spelled + dots + port, base, slug);
  }

  /** Printed slugs are labels the parser can return. */
  lemma SlugIsHostLabel(lowered: string, suffix: string)
    requires |suffix| == 6 && forall i :: 0 <= i < 6 ==> Alnum(suffix[i])
    ensures HostLabel(NewSlug(lowered, suffix))
  {
    SlugIsDnsLabel(lowered, suffix);
  }

  lemma EndsWithKeeps(s: string, t: string, i: nat)
    requires i < |t|
    ensures EndsWith(s, t) ==> s[|s| - |t| + i] == t[i]
  {
    if EndsWith(s, t) {
      assert s[|s| - |t|..][i] == s[|s| - |t| + i];
    }
  }

  /** A base domain with a port never matches: hosts are cut at their colon. */
  lemma ColonBaseNeverMatches(host: string, base: string)
    requires ':' in base
    ensures SlugFromHost(host, Some(base)) == None
  {
    var low := Lower(base);
    var m := StripRightIsPrefix(low, '.');
    var i :| 0 <= i < |base| && base[i] == ':';
    assert low[i] == ':' && i < m;
    var suffix := "." + low[..m];
    assert suffix[i + 1] == ':';
    CanonicalShape(host);
    EndsWithKeeps(Canonical(host), suffix, i + 1);
  }

  /** A base domain of dots never matches: hosts lose their trailing dots. */
  lemma DotsBaseNeverMatches(host: string, base: string)
    requires OnlyDots(base)
    ensures SlugFromHost(host, Some(base)) == None
  {
    assert Lower(base) == base;
    StripRightDots("", base);
    assert "" + base == base;
    assert StripRight(Lower(base), '.') == "";
    CanonicalShape(host);
    EndsWithKeeps(Canonical(host), ".", 0);
  }

  /** The base domains under which printed hosts come back: those with a character besides dots and no colon. */
  lemma RoundTripIff(slug: string, base: string)
    requires HostLabel(slug)
    ensures SlugFromHost(PublicHost(slug, base), Some(base)) == Some(slug) <==> ':' !in base && !OnlyDots(base)
  {
    if ':' in base {
      ColonBaseNeverMatches(PublicHost(slug, base), base);
    } else if OnlyDots(base) {
      DotsBaseNeverMatches(PublicHost(slug, base), base);
    } else {
      PrintedIsParsed(PublicHost(slug, base), base, slug);
    }
  }
}
