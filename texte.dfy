/**
 * String operations the engine relies on, written to match the behaviour of the
 * JavaScript built-ins it calls (`split`, `join`, `startsWith`, `includes`,
 * `trim`, `toLowerCase`, `parseInt`, number-to-text, `Array.from(new Set(..))`).
 */
module Texte {
  import opened Commun

  // ---------------------------------------------------------------------------
  // split / join on a one-character separator

  /** `s.split(c)`: the pieces between separators; never empty. */
  function Split(s: string, c: char): (r: seq<string>)
    ensures |r| >= 1
    ensures forall i :: 0 <= i < |r| ==> c !in r[i]
  {
    if s == [] then [""]
    else
      var reste := Split(s[1..], c);
      if s[0] == c then [""] + reste
      else [[s[0]] + reste[0]] + reste[1..]
  }

  /** `parts.join(c)`. */
  function Join(parts: seq<string>, c: char): string
  {
    if |parts| == 0 then ""
    else if |parts| == 1 then parts[0]
    else parts[0] + [c] + Join(parts[1..], c)
  }

  lemma {:induction false} SplitSansSeparateur(p: string, c: char)
    requires c !in p
    ensures Split(p, c) == [p]
  {
    if p != [] {
      SplitSansSeparateur(p[1..], c);
      assert [p[0]] + p[1..] == p;
    }
  }

  lemma {:induction false} SplitApresMorceau(p: string, c: char, s: string)
    requires c !in p
    ensures Split(p + [c] + s, c) == [p] + Split(s, c)
  {
    if p == [] {
      assert p + [c] + s == [c] + s;
      assert ([c] + s)[1..] == s;
    } else {
      var t := p + [c] + s;
      assert t[0] == p[0];
      assert t[1..] == p[1..] + [c] + s;
      SplitApresMorceau(p[1..], c, s);
      assert [p[0]] + p[1..] == p;
    }
  }

  /** Splitting a join gives the pieces back when no piece holds the separator. */
  lemma {:induction false} SplitJoin(parts: seq<string>, c: char)
    requires |parts| >= 1
    requires forall i :: 0 <= i < |parts| ==> c !in parts[i]
    ensures Split(Join(parts, c), c) == parts
  {
    if |parts| == 1 {
      SplitSansSeparateur(parts[0], c);
    } else {
      SplitJoin(parts[1..], c);
      SplitApresMorceau(parts[0], c, Join(parts[1..], c));
      assert [parts[0]] + parts[1..] == parts;
    }
  }

  /** Joining the pieces of a split gives the string back. */
  lemma {:induction false} JoinSplit(s: string, c: char)
    ensures Join(Split(s, c), c) == s
  {
    if s != [] {
      var reste := Split(s[1..], c);
      JoinSplit(s[1..], c);
      if s[0] == c {
        assert Join([""] + reste, c) == "" + [c] + Join(reste, c);
      } else if |reste| == 1 {
        assert [s[0]] + s[1..] == s;
      } else {
        var parts := [[s[0]] + reste[0]] + reste[1..];
        assert parts[1..] == reste[1..];
        assert Join(reste, c) == reste[0] + [c] + Join(reste[1..], c);
        assert [s[0]] + s[1..] == s;
      }
    }
  }

  // ---------------------------------------------------------------------------
  // prefixes and substrings

  predicate StartsWith(s: string, p: string)
  {
    |p| <= |s| && s[..|p|] == p
  }

  /** `s.includes(sub)`. */
  predicate Contains(s: string, sub: string)
    decreases |s|
  {
    StartsWith(s, sub) || (|s| > 0 && Contains(s[1..], sub))
  }

  lemma {:induction false} ContainsSousChaine(s: string, sub: string, i: nat)
    requires i + |sub| <= |s| && s[i..i + |sub|] == sub
    ensures Contains(s, sub)
    decreases i
  {
    if i > 0 {
      assert s[1..][i - 1..i - 1 + |sub|] == sub;
      ContainsSousChaine(s[1..], sub, i - 1);
    }
  }

  /** A text lacking one of the characters of `sub` does not contain it. */
  lemma {:induction false} ContainsManque(s: string, sub: string, ch: char)
    requires ch in sub && ch !in s
    ensures !Contains(s, sub)
    decreases |s|
  {
    if |s| > 0 {
      ContainsManque(s[1..], sub, ch);
    }
  }

  // ---------------------------------------------------------------------------
  // white space, trim, lower case

  /** The characters ECMAScript's `trim` and `\s` treat as white space or line terminators. */
  predicate EstEspace(ch: char)
  {
    ch == ' ' || ch == '\t' || ch == '\n' || ch == '\r' || ch == '\U{000B}' || ch == '\U{000C}'
    || ch == '\U{00A0}' || ch == '\U{1680}' || ('\U{2000}' <= ch <= '\U{200A}')
    || ch == '\U{2028}' || ch == '\U{2029}' || ch == '\U{202F}' || ch == '\U{205F}'
    || ch == '\U{3000}' || ch == '\U{FEFF}'
  }

  function TrimStart(s: string): (r: string)
    ensures |r| <= |s|
    ensures r == s[|s| - |r|..]
    ensures r != [] ==> !EstEspace(r[0])
    ensures forall i :: 0 <= i < |s| - |r| ==> EstEspace(s[i])
  {
    if s != [] && EstEspace(s[0]) then TrimStart(s[1..]) else s
  }

  function TrimEnd(s: string): (r: string)
    ensures |r| <= |s|
    ensures r == s[..|r|]
    ensures r != [] ==> !EstEspace(r[|r| - 1])
    ensures forall i :: |r| <= i < |s| ==> EstEspace(s[i])
  {
    if s != [] && EstEspace(s[|s| - 1]) then TrimEnd(s[..|s| - 1]) else s
  }

  /** `s.trim()`. */
  function Trim(s: string): (r: string)
    ensures |r| <= |s|
    ensures r != [] ==> !EstEspace(r[0]) && !EstEspace(r[|r| - 1])
  {
    TrimEnd(TrimStart(s))
  }

  /** Trimmed text neither starts nor ends with white space. */
  lemma TrimBords(s: string)
    ensures Trim(s) != [] ==> !EstEspace(Trim(s)[0]) && !EstEspace(Trim(s)[|Trim(s)| - 1])
  {
  }

  /** Trimming leaves nothing exactly when the text is all white space. */
  lemma TrimVide(s: string)
    ensures Trim(s) == [] <==> forall i :: 0 <= i < |s| ==> EstEspace(s[i])
  {
  }

  predicate SansEspaceAuxBords(s: string)
  {
    s == [] || (!EstEspace(s[0]) && !EstEspace(s[|s| - 1]))
  }

  lemma TrimIdentite(s: string)
    requires SansEspaceAuxBords(s)
    ensures Trim(s) == s
  {
  }

  lemma {:induction false} TrimStartEspaces(e: string, s: string)
    requires forall i :: 0 <= i < |e| ==> EstEspace(e[i])
    ensures TrimStart(e + s) == TrimStart(s)
  {
    if e != [] {
      assert (e + s)[0] == e[0];
      assert EstEspace((e + s)[0]);
      assert (e + s)[1..] == e[1..] + s;
      assert TrimStart(e + s) == TrimStart(e[1..] + s);
      TrimStartEspaces(e[1..], s);
    } else {
      assert e + s == s;
    }
  }

  lemma {:induction false} TrimEndEspaces(s: string, e: string)
    requires forall i :: 0 <= i < |e| ==> EstEspace(e[i])
    ensures TrimEnd(s + e) == TrimEnd(s)
  {
    if e != [] {
      assert (s + e)[|s + e| - 1] == e[|e| - 1];
      assert EstEspace((s + e)[|s + e| - 1]);
      assert (s + e)[..|s + e| - 1] == s + e[..|e| - 1];
      assert TrimEnd(s + e) == TrimEnd(s + e[..|e| - 1]);
      TrimEndEspaces(s, e[..|e| - 1]);
    } else {
      assert s + e == s;
    }
  }

  /** Text starting with a non-blank is its own `trimStart`. */
  lemma TrimStartSansEspace(t: string)
    requires t != [] && !EstEspace(t[0])
    ensures TrimStart(t) == t
  {
  }

  lemma {:induction false} TrimStartConcat(s: string, e: string)
    requires forall i :: 0 <= i < |e| ==> EstEspace(e[i])
    ensures TrimStart(s + e) == if TrimStart(s) == [] then [] else TrimStart(s) + e
  {
    if s == [] {
      assert s + e == e + [];
      TrimStartEspaces(e, []);
    } else if EstEspace(s[0]) {
      assert (s + e)[0] == s[0];
      assert (s + e)[1..] == s[1..] + e;
      TrimStartConcat(s[1..], e);
    } else {
      assert (s + e)[0] == s[0];
      TrimStartSansEspace(s + e);
      TrimStartSansEspace(s);
    }
  }

  /** Surrounding white space makes no difference to `trim`. */
  lemma {:induction false} TrimIgnoreEspacesAutour(e1: string, s: string, e2: string)
    requires forall i :: 0 <= i < |e1| ==> EstEspace(e1[i])
    requires forall i :: 0 <= i < |e2| ==> EstEspace(e2[i])
    ensures Trim(e1 + s + e2) == Trim(s)
  {
    assert e1 + s + e2 == e1 + (s + e2);
    TrimStartEspaces(e1, s + e2);
    TrimStartConcat(s, e2);
    if TrimStart(s) != [] {
      TrimEndEspaces(TrimStart(s), e2);
    }
  }

  /** `toLowerCase` on one character: ASCII and Latin-1 capitals. */
  function LowerChar(ch: char): char
  {
    if 'A' <= ch <= 'Z' then (ch as int + 32) as char
    else if ('\U{00C0}' <= ch <= '\U{00DE}') && ch != '\U{00D7}' then (ch as int + 32) as char
    else ch
  }

  function Lower(s: string): (r: string)
    ensures |r| == |s|
    ensures forall i :: 0 <= i < |s| ==> r[i] == LowerChar(s[i])
  {
    if s == [] then [] else [LowerChar(s[0])] + Lower(s[1..])
  }

  // ---------------------------------------------------------------------------
  // numbers as text

  function Chiffre(d: nat): char
    requires d < 10
  {
    ('0' as int + d) as char
  }

  predicate EstChiffre(ch: char)
  {
    '0' <= ch <= '9'
  }

  function ValeurChiffre(ch: char): nat
    requires EstChiffre(ch)
  {
    ch as int - '0' as int
  }

  /** Decimal text of a natural number, without leading zeros. */
  function NatToString(n: nat): (r: string)
    ensures |r| >= 1
    ensures forall i :: 0 <= i < |r| ==> EstChiffre(r[i])
  {
    if n < 10 then [Chiffre(n)] else NatToString(n / 10) + [Chiffre(n % 10)]
  }

  /** `String(n)` for an integer. */
  function IntToString(i: int): string
  {
    if i < 0 then "-" + NatToString(-i) else NatToString(i)
  }

  function ValeurChiffres(d: string): nat
    requires forall i :: 0 <= i < |d| ==> EstChiffre(d[i])
  {
    if d == [] then 0 else ValeurChiffres(d[..|d| - 1]) * 10 + ValeurChiffre(d[|d| - 1])
  }

  /** The longest prefix made of decimal digits. */
  function PrefixeChiffres(s: string): (r: string)
    ensures |r| <= |s| && r == s[..|r|]
    ensures forall i :: 0 <= i < |r| ==> EstChiffre(r[i])
  {
    if s != [] && EstChiffre(s[0]) then [s[0]] + PrefixeChiffres(s[1..]) else []
  }

  /**
   * `Number.parseInt(s, 10)`: leading white space, an optional sign, then the
   * longest run of digits. None stands for NaN (no digit at all).
   */
  function ParseInt(s: string): (r: Option<int>)
    ensures s != [] && EstChiffre(s[0]) ==> r.Some? && r.valeur >= 0
    ensures |s| >= 2 && s[0] == '-' && EstChiffre(s[1]) ==> r.Some? && r.valeur <= 0
  {
    var t := TrimStart(s);
    assert s != [] && (EstChiffre(s[0]) || s[0] == '-') ==> t == s by {
      if s != [] && (EstChiffre(s[0]) || s[0] == '-') {
        TrimStartSansEspace(s);
      }
    }
    var negatif := t != [] && t[0] == '-';
    var corps := if t != [] && (t[0] == '-' || t[0] == '+') then t[1..] else t;
    var d := PrefixeChiffres(corps);
    if d == [] then None
    else
      var v: int := ValeurChiffres(d);
      Some(if negatif then -v else v)
  }

  /** Text without a single digit reads as NaN. */
  lemma ParseIntSansChiffre(s: string)
    requires forall i :: 0 <= i < |s| ==> !EstChiffre(s[i])
    ensures ParseInt(s).None?
  {
  }

  lemma {:induction false} ValeurNatToString(n: nat)
    ensures ValeurChiffres(NatToString(n)) == n
  {
    if n >= 10 {
      ValeurNatToString(n / 10);
      var s := NatToString(n);
      assert s[..|s| - 1] == NatToString(n / 10);
    }
  }

  lemma {:induction false} PrefixeChiffresTout(s: string)
    requires forall i :: 0 <= i < |s| ==> EstChiffre(s[i])
    ensures PrefixeChiffres(s) == s
  {
    if s != [] {
      PrefixeChiffresTout(s[1..]);
    }
  }

  /** Reading back the decimal text of a natural number gives the number. */
  lemma ParseIntNatToString(n: nat)
    ensures ParseInt(NatToString(n)) == Some(n)
  {
    var s := NatToString(n);
    assert !EstEspace(s[0]) && s[0] != '-' && s[0] != '+';
    PrefixeChiffresTout(s);
    ValeurNatToString(n);
  }

  /** Text starting with a minus sign is its own `trimStart`. */
  lemma TrimStartMoins(s: string)
    requires s != [] && s[0] == '-'
    ensures TrimStart(s) == s
  {
    TrimStartSansEspace(s);
  }

  /** After a minus sign, `parseInt` negates the value of the digits that follow. */
  lemma ParseIntMoins(s: string)
    requires s != [] && s[0] == '-' && PrefixeChiffres(s[1..]) != []
    ensures ParseInt(s) == Some(-(ValeurChiffres(PrefixeChiffres(s[1..])) as int))
  {
    TrimStartMoins(s);
  }

  /** Reading back the decimal text of any integer gives the integer. */
  lemma ParseIntIntToString(i: int)
    ensures ParseInt(IntToString(i)) == Some(i)
  {
    if i >= 0 {
      ParseIntNatToString(i);
    } else {
      ParseIntNegatif(-i);
    }
  }

  lemma ParseIntNegatif(n: nat)
    ensures ParseInt("-" + NatToString(n)) == Some(-(n as int))
  {
    var d := NatToString(n);
    var s := "-" + d;
    assert s[0] == '-' && s[1..] == d;
    PrefixeChiffresTout(d);
    ValeurNatToString(n);
    ParseIntMoins(s);
  }

  /** Distinct numbers have distinct decimal texts. */
  lemma NatToStringInjectif()
    ensures forall a: nat, b: nat :: NatToString(a) == NatToString(b) ==> a == b
  {
    forall a: nat, b: nat | NatToString(a) == NatToString(b) ensures a == b {
      ParseIntNatToString(a);
      ParseIntNatToString(b);
    }
  }

  // ---------------------------------------------------------------------------
  // de-duplication keeping first occurrences: Array.from(new Set(s))

  predicate SansDoublon<T(==)>(s: seq<T>)
  {
    forall i, j :: 0 <= i < j < |s| ==> s[i] != s[j]
  }

  /** Keeps an element exactly when it does not occur earlier in `s`. */
  function Dedupliquer<T(==)>(s: seq<T>): (r: seq<T>)
    ensures |r| <= |s|
  {
    if s == [] then []
    else
      var debut := s[..|s| - 1];
      var x := s[|s| - 1];
      Dedupliquer(debut) + (if x in debut then [] else [x])
  }

  lemma {:induction false} DedupliquerElements<T>(s: seq<T>)
    ensures forall x :: x in Dedupliquer(s) <==> x in s
  {
    if s != [] {
      var debut := s[..|s| - 1];
      DedupliquerElements(debut);
      assert s == debut + [s[|s| - 1]];
    }
  }

  lemma {:induction false} DedupliquerSansDoublon<T>(s: seq<T>)
    ensures SansDoublon(Dedupliquer(s))
  {
    if s != [] {
      var debut := s[..|s| - 1];
      DedupliquerSansDoublon(debut);
      DedupliquerElements(debut);
    }
  }

  /** The first element of the input is the first element of the output. */
  lemma {:induction false} DedupliquerPremier<T>(s: seq<T>)
    requires s != []
    ensures Dedupliquer(s) != [] && Dedupliquer(s)[0] == s[0]
  {
    if |s| > 1 {
      var debut := s[..|s| - 1];
      DedupliquerPremier(debut);
    }
  }

  /** A sequence without duplicates is left as it is. */
  lemma {:induction false} DedupliquerIdentite<T>(s: seq<T>)
    ensures SansDoublon(s) ==> Dedupliquer(s) == s
  {
    if s != [] && SansDoublon(s) {
      var debut := s[..|s| - 1];
      DedupliquerIdentite(debut);
      assert s == debut + [s[|s| - 1]];
    }
  }

  /** Appending keeps the first occurrences of the prefix in front. */
  lemma {:induction false} DedupliquerConcat<T>(a: seq<T>, b: seq<T>)
    ensures |Dedupliquer(a)| <= |Dedupliquer(a + b)|
    ensures Dedupliquer(a + b)[..|Dedupliquer(a)|] == Dedupliquer(a)
  {
    if b != [] {
      var b' := b[..|b| - 1];
      assert (a + b)[..|a + b| - 1] == a + b';
      DedupliquerConcat(a, b');
    } else {
      assert a + b == a;
    }
  }

  /** Index of the first occurrence of `x` in `s`. */
  function PremiereOccurrence<T(==)>(s: seq<T>, x: T): (i: nat)
    requires x in s
    ensures i < |s| && s[i] == x
  {
    if s[0] == x then 0 else 1 + PremiereOccurrence(s[1..], x)
  }

  lemma {:induction false} PremiereOccurrencePrefixe<T>(a: seq<T>, b: seq<T>, x: T)
    requires x in a
    ensures PremiereOccurrence(a + b, x) == PremiereOccurrence(a, x)
  {
    if a[0] != x {
      assert (a + b)[1..] == a[1..] + b;
      PremiereOccurrencePrefixe(a[1..], b, x);
    }
  }

  /** No earlier position holds `x`. */
  lemma {:induction false} PremiereOccurrenceMinimale<T>(s: seq<T>, x: T)
    requires x in s
    ensures forall j :: 0 <= j < PremiereOccurrence(s, x) ==> s[j] != x
  {
    if s[0] != x {
      PremiereOccurrenceMinimale(s[1..], x);
    }
  }

  /** The first occurrence is the one position holding `x` with no `x` before it. */
  lemma PremiereOccurrenceUnique<T>(s: seq<T>, x: T, k: nat)
    requires k < |s| && s[k] == x
    requires forall j :: 0 <= j < k ==> s[j] != x
    ensures PremiereOccurrence(s, x) == k
  {
    PremiereOccurrenceMinimale(s, x);
  }

  /** A new last element first occurs at the end. */
  lemma PremiereOccurrenceDerniere<T>(debut: seq<T>, x: T)
    requires x !in debut
    ensures x in debut + [x] && PremiereOccurrence(debut + [x], x) == |debut|
  {
    var s := debut + [x];
    assert s[|debut|] == x;
    forall j | 0 <= j < |debut| ensures s[j] != x {
      assert s[j] == debut[j];
    }
    PremiereOccurrenceUnique(s, x, |debut|);
  }

  lemma DedupliquerOrdreEtape<T>(debut: seq<T>, x: T)
    requires forall y :: y in Dedupliquer(debut) ==> y in debut
    requires forall i, j :: 0 <= i < j < |Dedupliquer(debut)| ==>
               PremiereOccurrence(debut, Dedupliquer(debut)[i]) < PremiereOccurrence(debut, Dedupliquer(debut)[j])
    ensures forall y :: y in Dedupliquer(debut + [x]) ==> y in debut + [x]
    ensures forall i, j :: 0 <= i < j < |Dedupliquer(debut + [x])| ==>
              PremiereOccurrence(debut + [x], Dedupliquer(debut + [x])[i]) < PremiereOccurrence(debut + [x], Dedupliquer(debut + [x])[j])
  {
    var s := debut + [x];
    DedupliquerElements(s);
    DedupliquerEtapeGenerique(debut, x);
    var d := Dedupliquer(debut);
    var r := Dedupliquer(s);
    forall i, j | 0 <= i < j < |r|
      ensures PremiereOccurrence(s, r[i]) < PremiereOccurrence(s, r[j])
    {
      assert r[i] == d[i] && d[i] in d && d[i] in debut;
      PremiereOccurrencePrefixe(debut, [x], d[i]);
      if j < |d| {
        assert r[j] == d[j] && d[j] in d && d[j] in debut;
        PremiereOccurrencePrefixe(debut, [x], d[j]);
      } else {
        assert r[j] == x && x !in debut;
        PremiereOccurrenceDerniere(debut, x);
      }
    }
  }

  lemma DedupliquerEtapeGenerique<T>(debut: seq<T>, x: T)
    ensures Dedupliquer(debut + [x]) == Dedupliquer(debut) + (if x in debut then [] else [x])
  {
    assert (debut + [x])[..|debut|] == debut;
  }

  /** The kept elements come in the order of their first occurrences. */
  lemma {:induction false} DedupliquerOrdre<T>(s: seq<T>)
    ensures forall x :: x in Dedupliquer(s) ==> x in s
    ensures forall i, j :: 0 <= i < j < |Dedupliquer(s)| ==>
              PremiereOccurrence(s, Dedupliquer(s)[i]) < PremiereOccurrence(s, Dedupliquer(s)[j])
  {
    if s != [] {
      var debut := s[..|s| - 1];
      var x := s[|s| - 1];
      assert s == debut + [x];
      DedupliquerOrdre(debut);
      DedupliquerOrdreEtape(debut, x);
    }
  }
}
