/** The two pure helpers of the URL pipeline endpoint (api/process-url.ts):
    the base URL of the running deployment and the filename slug made from an
    episode title. */
module ProcessUrl {
  import opened Common

  const DefaultHost: string := "localhost:3000"
  const MaxSlugLength: nat := 50

  // ---------------------------------------------------------------------------
  // getBaseUrl
  // ---------------------------------------------------------------------------

  /** `` `${protocol}://${host}` `` with `host` the request's Host header or
      `localhost:3000`, and plain HTTP only for a local host. */
  function BaseUrl(hostHeader: Option<string>): (r: string)
    ensures EndsWith(r, OrElse(hostHeader, DefaultHost))
  {
    var host := OrElse(hostHeader, DefaultHost);
    SchemeUrl(Contains(host, "localhost"), host);
    (if Contains(host, "localhost") then "http" else "https") + "://" + host
  }

  /** The URL ends with the host, and its scheme is `http` exactly when the
      host mentions `localhost`. */
  lemma BaseUrlScheme(hostHeader: Option<string>)
    ensures var host := OrElse(hostHeader, DefaultHost);
      var r := BaseUrl(hostHeader);
      && EndsWith(r, host)
      && (StartsWith(r, "http://") <==> Contains(host, "localhost"))
      && (StartsWith(r, "https://") <==> !Contains(host, "localhost"))
  {
    var host := OrElse(hostHeader, DefaultHost);
    SchemeUrl(Contains(host, "localhost"), host);
  }

  /** `http://` or `https://` followed by a host ends with the host, and
      starts with `http://` exactly when the scheme is plain HTTP. */
  lemma SchemeUrl(local: bool, host: string)
    ensures var r := (if local then "http" else "https") + "://" + host;
      && EndsWith(r, host)
      && (StartsWith(r, "http://") <==> local)
      && (StartsWith(r, "https://") <==> !local)
  {
    var r := (if local then "http" else "https") + "://" + host;
    assert r[|r| - |host|..] == host;
    if local {
      assert r[..7] == "http://";
      if |r| >= 8 {
        assert r[..8] != "https://" by { assert r[4] == ':'; }
      }
    } else {
      assert r[..8] == "https://";
      assert r[..7] != "http://" by { assert r[4] == 's'; }
    }
  }

  /** Without a Host header the URL is the local development server. */
  lemma BaseUrlDefault()
    ensures BaseUrl(None) == "http://" + DefaultHost
  {
    assert Contains(DefaultHost, "localhost") by {
      assert DefaultHost[0..9] == "localhost";
      ContainsAt(DefaultHost, "localhost", 0);
    }
  }

  // ---------------------------------------------------------------------------
  // sanitizeFilename
  // ---------------------------------------------------------------------------

  /** The class `[a-z0-9]` */
  predicate IsSlugAlnum(c: char) { IsLowerAscii(c) || IsDigit(c) }

  /** The characters a slug may hold: `[a-z0-9-]` */
  predicate IsSlugChar(c: char) { IsSlugAlnum(c) || c == '-' }

  predicate AllSlugChars(s: string)
  {
    forall i :: 0 <= i < |s| ==> IsSlugChar(s[i])
  }

  predicate NoDoubleHyphen(s: string)
  {
    forall i :: 0 <= i < |s| - 1 ==> !(s[i] == '-' && s[i + 1] == '-')
  }

  /** The `[a-z0-9]` characters of `s`, in order. */
  function Kept(s: string): (r: string)
    ensures |r| <= |s|
  {
    if s == [] then [] else (if IsSlugAlnum(s[0]) then [s[0]] else []) + Kept(s[1..])
  }

  /** `.replace(/[^a-z0-9]+/g, '-')`: every maximal run of other characters
      becomes one `-`. `inRun` says the character before `s` was such a
      character, so a run that started there continues. */
  function CollapseRuns(s: string, inRun: bool): (r: string)
    ensures AllSlugChars(r)
    ensures NoDoubleHyphen(r)
    ensures inRun ==> r == [] || r[0] != '-'
    ensures Kept(r) == Kept(s)
  {
    if s == [] then []
    else if IsSlugAlnum(s[0]) then [s[0]] + CollapseRuns(s[1..], false)
    else if inRun then CollapseRuns(s[1..], true)
    else ['-'] + CollapseRuns(s[1..], true)
  }

  /** Whether the text after `a` continues a run of non-`[a-z0-9]`
      characters, when `inRun` says whether one was open before `a`. */
  function EndsInRun(a: string, inRun: bool): bool
  {
    if a == [] then inRun else !IsSlugAlnum(a[|a| - 1])
  }

  /** The replacement works left to right: collapsing `a + b` is collapsing
      `a`, then `b` with the run state `a` leaves. */
  lemma {:induction false} CollapseRunsAppend(a: string, b: string, inRun: bool)
    ensures CollapseRuns(a + b, inRun) == CollapseRuns(a, inRun) + CollapseRuns(b, EndsInRun(a, inRun))
  {
    if a == [] {
      assert a + b == b;
    } else {
      var next := !IsSlugAlnum(a[0]);
      CollapseRunsHeadOfAppend(a, b, inRun);
      CollapseRunsHead(a, inRun);
      CollapseRunsAppend(a[1..], b, next);
      assert EndsInRun(a[1..], next) == EndsInRun(a, inRun);
      var head := if IsSlugAlnum(a[0]) then [a[0]] else if inRun then [] else "-";
      ConcatAssoc(head, CollapseRuns(a[1..], next), CollapseRuns(b, EndsInRun(a, inRun)));
    }
  }

  lemma ConcatAssoc(h: string, x: string, t: string)
    ensures h + (x + t) == (h + x) + t
  {
  }

  /** One step of the replacement. */
  lemma CollapseRunsHead(s: string, inRun: bool)
    requires s != []
    ensures CollapseRuns(s, inRun)
         == (if IsSlugAlnum(s[0]) then [s[0]] else if inRun then [] else "-")
            + CollapseRuns(s[1..], !IsSlugAlnum(s[0]))
  {
  }

  lemma CollapseRunsHeadOfAppend(a: string, b: string, inRun: bool)
    requires a != []
    ensures CollapseRuns(a + b, inRun)
         == (if IsSlugAlnum(a[0]) then [a[0]] else if inRun then [] else "-")
            + CollapseRuns(a[1..] + b, !IsSlugAlnum(a[0]))
  {
    assert (a + b)[0] == a[0] && (a + b)[1..] == a[1..] + b;
    CollapseRunsHead(a + b, inRun);
  }

  /** A whole run of other characters becomes one `-`, or nothing when it
      continues a run already replaced. */
  lemma {:induction false} CollapseSeparatorRun(w: string, inRun: bool)
    requires w != [] && forall i :: 0 <= i < |w| ==> !IsSlugAlnum(w[i])
    ensures CollapseRuns(w, inRun) == if inRun then [] else "-"
  {
    if |w| > 1 {
      CollapseSeparatorRun(w[1..], true);
    }
  }

  /** Between two letters or digits, a maximal run of other characters
      becomes exactly one `-`. */
  lemma SeparatorBecomesOneHyphen(u: string, w: string, v: string, inRun: bool)
    requires u != [] && IsSlugAlnum(u[|u| - 1])
    requires w != [] && forall i :: 0 <= i < |w| ==> !IsSlugAlnum(w[i])
    requires v != [] && IsSlugAlnum(v[0])
    ensures CollapseRuns(u + w + v, inRun) == CollapseRuns(u, inRun) + "-" + CollapseRuns(v, false)
  {
    CollapseRunsAppend(u + w, v, inRun);
    CollapseRunsAppend(u, w, inRun);
    CollapseSeparatorRun(w, false);
    assert (u + w)[|u + w| - 1] == w[|w| - 1];
  }

  lemma {:induction false} CollapseAlnum(s: string, inRun: bool)
    requires forall i :: 0 <= i < |s| ==> IsSlugAlnum(s[i])
    ensures CollapseRuns(s, inRun) == s
  {
    if s != [] {
      CollapseAlnum(s[1..], false);
    }
  }

  /** `.replace(/^-+/, '')` */
  function DropLeadingHyphens(s: string): (r: string)
    ensures |r| <= |s| && r == s[|s| - |r|..]
    ensures forall i :: 0 <= i < |s| - |r| ==> s[i] == '-'
    ensures r == [] || r[0] != '-'
  {
    if s == [] || s[0] != '-' then s else DropLeadingHyphens(s[1..])
  }

  /** `.replace(/-+$/, '')` */
  function DropTrailingHyphens(s: string): (r: string)
    ensures |r| <= |s| && r == s[..|r|]
    ensures forall i :: |r| <= i < |s| ==> s[i] == '-'
    ensures r == [] || r[|r| - 1] != '-'
  {
    if s == [] || s[|s| - 1] != '-' then s else DropTrailingHyphens(s[..|s| - 1])
  }

  /** The slug before the 50-character cut. */
  function Slug(title: string): string
  {
    DropTrailingHyphens(DropLeadingHyphens(CollapseRuns(Lower(title), false)))
  }

  /** `sanitizeFilename(title)` */
  function SanitizeFilename(title: string): (r: string)
    ensures |r| <= MaxSlugLength
  {
    Substring(Slug(title), 0, MaxSlugLength)
  }

  lemma {:induction false} KeptAppend(a: string, b: string)
    ensures Kept(a + b) == Kept(a) + Kept(b)
  {
    if a == [] {
      assert a + b == b;
    } else {
      var head := if IsSlugAlnum(a[0]) then [a[0]] else [];
      assert (a + b)[0] == a[0] && (a + b)[1..] == a[1..] + b;
      assert Kept(a + b) == head + Kept(a[1..] + b);
      KeptAppend(a[1..], b);
      assert Kept(a) == head + Kept(a[1..]);
    }
  }

  lemma {:induction false} KeptOfHyphens(s: string)
    requires forall i :: 0 <= i < |s| ==> s[i] == '-'
    ensures Kept(s) == []
  {
    if s != [] {
      KeptOfHyphens(s[1..]);
    }
  }

  /** A hyphen-free-at-the-ends infix of a slug keeps its properties. */
  lemma InfixIsSlug(s: string, a: nat, b: nat)
    requires a <= b <= |s| && AllSlugChars(s) && NoDoubleHyphen(s)
    ensures AllSlugChars(s[a..b]) && NoDoubleHyphen(s[a..b])
  {
    var t := s[a..b];
    forall i | 0 <= i < |t| - 1 ensures !(t[i] == '-' && t[i + 1] == '-') {
      assert t[i] == s[a + i] && t[i + 1] == s[a + i + 1];
    }
  }

  lemma KeptDropLeading(c: string)
    ensures Kept(DropLeadingHyphens(c)) == Kept(c)
  {
    var l := DropLeadingHyphens(c);
    var front := c[..|c| - |l|];
    assert c == front + l;
    KeptAppend(front, l);
    KeptOfHyphens(front);
  }

  lemma KeptDropTrailing(l: string)
    ensures Kept(DropTrailingHyphens(l)) == Kept(l)
  {
    var t := DropTrailingHyphens(l);
    var back := l[|t|..];
    assert l == t + back;
    KeptAppend(t, back);
    KeptOfHyphens(back);
  }

  /** The slug keeps the lower-cased title's letters and digits, in order. */
  lemma SlugKeeps(title: string)
    ensures Kept(Slug(title)) == Kept(Lower(title))
  {
    var c := CollapseRuns(Lower(title), false);
    KeptDropLeading(c);
    KeptDropTrailing(DropLeadingHyphens(c));
  }

  /** The slug before the cut is made of `[a-z0-9-]`, has no `--` and neither
      starts nor ends with `-`. */
  lemma SlugShape(title: string)
    ensures var s := Slug(title);
      && AllSlugChars(s) && NoDoubleHyphen(s)
      && (s == [] || (s[0] != '-' && s[|s| - 1] != '-'))
  {
    var c := CollapseRuns(Lower(title), false);
    var l := DropLeadingHyphens(c);
    var t := DropTrailingHyphens(l);
    InfixIsSlug(c, |c| - |l|, |c|);
    assert l == c[|c| - |l|..|c|];
    InfixIsSlug(l, 0, |t|);
    assert t == l[0..|t|];
  }

  /** Cutting a slug to 50 characters keeps its shape and a prefix of its
      letters and digits. */
  lemma CutSlug(s: string)
    requires AllSlugChars(s) && NoDoubleHyphen(s) && (s == [] || s[0] != '-')
    ensures var r := Substring(s, 0, MaxSlugLength);
      && |r| <= MaxSlugLength && AllSlugChars(r) && NoDoubleHyphen(r)
      && (r == [] || r[0] != '-')
      && (|s| <= MaxSlugLength ==> r == s)
      && StartsWith(Kept(s), Kept(r))
  {
    var r := Substring(s, 0, MaxSlugLength);
    if |s| > MaxSlugLength {
      assert r == s[0..MaxSlugLength];
      InfixIsSlug(s, 0, MaxSlugLength);
      assert s == r + s[MaxSlugLength..];
      KeptAppend(r, s[MaxSlugLength..]);
      assert Kept(s)[..|Kept(r)|] == Kept(r);
    } else {
      assert r == s;
      assert Kept(s)[..|Kept(r)|] == Kept(r);
    }
  }

  /** The whole contract of `sanitizeFilename`: at most 50 characters of
      `[a-z0-9-]`, no `--`, no leading `-`, no trailing `-` unless the cut
      fell right after one, and the input's lower-cased letters and digits in
      order up to the cut. */
  lemma SanitizeFilenameContract(title: string)
    ensures var r := SanitizeFilename(title);
      && |r| <= MaxSlugLength
      && AllSlugChars(r) && NoDoubleHyphen(r)
      && (r == [] || r[0] != '-')
      && (|Slug(title)| <= MaxSlugLength ==> r == Slug(title) && (r == [] || r[|r| - 1] != '-'))
      && StartsWith(Kept(Lower(title)), Kept(r))
      && (|Slug(title)| <= MaxSlugLength ==> Kept(r) == Kept(Lower(title)))
  {
    SlugShape(title);
    SlugKeeps(title);
    CutSlug(Slug(title));
  }

  /** Two words of `[a-z0-9]` separated by other characters give the two
      words joined by one `-`. */
  lemma SlugOfTwoWords(title: string, u: string, w: string, v: string)
    requires Lower(title) == u + w + v
    requires u != [] && forall i :: 0 <= i < |u| ==> IsSlugAlnum(u[i])
    requires w != [] && forall i :: 0 <= i < |w| ==> !IsSlugAlnum(w[i])
    requires v != [] && forall i :: 0 <= i < |v| ==> IsSlugAlnum(v[i])
    ensures Slug(title) == u + "-" + v
  {
    SeparatorBecomesOneHyphen(u, w, v, false);
    CollapseAlnum(u, false);
    CollapseAlnum(v, false);
    JoinedWordsEnds(u, v);
    TrimNoHyphens(u + "-" + v);
  }

  lemma JoinedWordsEnds(u: string, v: string)
    requires u != [] && IsSlugAlnum(u[0]) && v != [] && IsSlugAlnum(v[|v| - 1])
    ensures var c := u + "-" + v; c[0] != '-' && c[|c| - 1] != '-'
  {
    var c := u + "-" + v;
    assert c[0] == u[0] && c[|c| - 1] == v[|v| - 1];
  }

  /** Hyphen trimming leaves a string that neither starts nor ends with `-`. */
  lemma TrimNoHyphens(c: string)
    requires c != [] && c[0] != '-' && c[|c| - 1] != '-'
    ensures DropTrailingHyphens(DropLeadingHyphens(c)) == c
  {
  }

  lemma {:induction false} NoKeptMeansHyphens(s: string)
    requires AllSlugChars(s) && Kept(s) == []
    ensures forall i :: 0 <= i < |s| ==> s[i] == '-'
  {
    if s != [] {
      NoKeptMeansHyphens(s[1..]);
    }
  }

  /** A title without any ASCII letter or digit gives the empty name. */
  lemma SymbolsOnlyGiveEmpty(title: string)
    requires forall i :: 0 <= i < |title| ==> !IsAsciiAlnum(title[i])
    ensures SanitizeFilename(title) == ""
  {
    var lower := Lower(title);
    assert Kept(lower) == [] by {
      NoAlnumKept(lower);
    }
    var c := CollapseRuns(lower, false);
    NoKeptMeansHyphens(c);
    var l := DropLeadingHyphens(c);
    assert l == [];
  }

  lemma {:induction false} NoAlnumKept(s: string)
    requires forall i :: 0 <= i < |s| ==> !IsSlugAlnum(s[i])
    ensures Kept(s) == []
  {
    if s != [] {
      NoAlnumKept(s[1..]);
    }
  }
}
