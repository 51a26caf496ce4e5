/**
 * The leaderboard ledger: for each of the four boards, a map from user id to
 * that user's running total.  Totals only ever change through `AjouterScore`.
 */
module Classements {
  import opened Commun

  datatype EntreeClassement = EntreeClassement(utilisateurId: string, points: real, derniereMiseAJour: string)

  /** How many entries `obtenirTop` lists when no limit is given. */
  const LimiteParDefaut: int := 10

  /** One board: user id to entry. */
  type Tableau = map<string, EntreeClassement>

  /** Every entry sits under its own user id. */
  ghost predicate TableauBienForme(t: Tableau)
  {
    forall u :: u in t ==> t[u].utilisateurId == u
  }

  /** Current total of a user on a board; a user never scored counts as 0. */
  function TotalActuel(t: Tableau, u: string): real
  {
    if u in t then t[u].points else 0.0
  }

  /**
   * The board after crediting `points` to `u` at instant `maintenant`: the
   * user's total grows by exactly `points`, every other user is untouched.
   */
  function Crediter(t: Tableau, u: string, points: real, maintenant: string): (r: Tableau)
    ensures u in r && r[u].utilisateurId == u && r[u].derniereMiseAJour == maintenant
    ensures TotalActuel(r, u) == TotalActuel(t, u) + points
    ensures forall v :: v != u ==> (v in r <==> v in t) && (v in t ==> r[v] == t[v])
    ensures TableauBienForme(t) ==> TableauBienForme(r)
  {
    t[u := EntreeClassement(u, TotalActuel(t, u) + points, maintenant)]
  }

  /** The entries of a board, as a set. */
  ghost function EntreesTableau(t: Tableau): set<EntreeClassement>
  {
    set u | u in t :: t[u]
  }

  // ---------------------------------------------------------------------------
  // ordering used by the top-N query

  predicate Decroissant(s: seq<EntreeClassement>)
  {
    forall i, j :: 0 <= i < j < |s| ==> s[i].points >= s[j].points
  }

  /** Places `e` after every entry with at least as many points. */
  function Inserer(e: EntreeClassement, s: seq<EntreeClassement>): (r: seq<EntreeClassement>)
    requires Decroissant(s)
    ensures Decroissant(r)
    ensures multiset(r) == multiset(s) + multiset{e}
    ensures |r| == |s| + 1
  {
    if |s| == 0 then [e]
    else if e.points > s[0].points then [e] + s
    else
      var reste := Inserer(e, s[1..]);
      InsererEnTete(e, s, reste);
      [s[0]] + reste
  }

  lemma InsererEnTete(e: EntreeClassement, s: seq<EntreeClassement>, reste: seq<EntreeClassement>)
    requires |s| > 0 && Decroissant(s) && e.points <= s[0].points
    requires Decroissant(reste) && multiset(reste) == multiset(s[1..]) + multiset{e}
    ensures Decroissant([s[0]] + reste)
    ensures multiset([s[0]] + reste) == multiset(s) + multiset{e}
  {
    assert s == [s[0]] + s[1..];
    forall x | x in reste
      ensures x.points <= s[0].points
    {
      assert x in multiset(reste);
      if x != e {
        assert x in multiset(s[1..]);
        assert x in s[1..];
      }
    }
  }

  /** A stable sort by non-increasing points: the `(a, b) => b.points - a.points` comparator. */
  function Trier(s: seq<EntreeClassement>): (r: seq<EntreeClassement>)
    ensures Decroissant(r)
    ensures multiset(r) == multiset(s)
    ensures |r| == |s|
  {
    if |s| == 0 then []
    else
      var r := Inserer(s[|s| - 1], Trier(s[..|s| - 1]));
      assert s == s[..|s| - 1] + [s[|s| - 1]];
      r
  }

  /** End index of `s.slice(0, limite)` on a sequence of length `n`. */
  function FinTranche(n: nat, limite: int): (f: nat)
    ensures f <= n
    ensures limite >= 0 ==> f == if limite < n then limite else n
    ensures limite < 0 ==> f == if n + limite > 0 then n + limite else 0
  {
    if limite >= 0 then (if limite < n then limite else n)
    else if n + limite > 0 then n + limite else 0
  }

  // ---------------------------------------------------------------------------
  // the service

  class ServiceClassements {
    var classements: map<TypeClassement, Tableau>

    ghost predicate Valid()
      reads this
    {
      (forall t: TypeClassement :: t in classements) &&
      (forall t: TypeClassement :: TableauBienForme(classements[t]))
    }

    /** Four empty boards. */
    constructor()
      ensures Valid()
      ensures forall t: TypeClassement :: classements[t] == map[]
    {
      var vides: map<TypeClassement, Tableau> := map[Quotidien := map[], Hebdomadaire := map[], Mensuel := map[], Global := map[]];
      ToutesLesClesPresentes(vides);
      classements := vides;
    }

    /**
     * Adds `points` to the user's total on board `typ` (a missing entry counts
     * as 0) and stamps the entry with `maintenant`; nothing else changes.
     */
    method AjouterScore(typ: TypeClassement, utilisateurId: string, points: real, maintenant: string)
      requires Valid()
      modifies this
      ensures Valid()
      ensures classements == old(classements)[typ := Crediter(old(classements)[typ], utilisateurId, points, maintenant)]
    {
      var classement := classements[typ];
      var entreeExistante := if utilisateurId in classement then Some(classement[utilisateurId]) else None;
      var nouveauTotal := (if entreeExistante.Some? then entreeExistante.valeur.points else 0.0) + points;
      classements := classements[typ := classement[utilisateurId := EntreeClassement(utilisateurId, nouveauTotal, maintenant)]];
    }

    /** `classement.get(utilisateurId) ?? null`. */
    function ObtenirScoreUtilisateur(typ: TypeClassement, utilisateurId: string): (r: Option<EntreeClassement>)
      requires Valid()
      reads this
      ensures r.None? <==> utilisateurId !in classements[typ]
      ensures r.Some? ==> r.valeur in EntreesTableau(classements[typ]) && r.valeur.utilisateurId == utilisateurId
    {
      if utilisateurId in classements[typ] then Some(classements[typ][utilisateurId]) else None
    }

    /**
     * The board's entries sorted by non-increasing points, cut to `limite` as
     * `slice(0, limite)` does (a negative limit drops entries from the end);
     * without a limit, the top 10.  Entries with equal points may come in any
     * order.
     */
    method ObtenirTop(typ: TypeClassement, limite: Option<int>) returns (r: seq<EntreeClassement>)
      requires Valid()
      ensures |r| == FinTranche(|classements[typ]|, limite.GetOr(LimiteParDefaut))
      ensures Decroissant(r)
      ensures forall i :: 0 <= i < |r| ==> r[i] in EntreesTableau(classements[typ])
      ensures forall i, j :: 0 <= i < j < |r| ==> r[i].utilisateurId != r[j].utilisateurId
      ensures forall u :: u in classements[typ] && classements[typ][u] !in r ==>
                forall i :: 0 <= i < |r| ==> classements[typ][u].points <= r[i].points
    {
      var tableau := classements[typ];
      var valeurs := ValeursDe(tableau);
      var tries := Trier(valeurs);
      var fin := FinTranche(|tries|, limite.GetOr(LimiteParDefaut));
      r := tries[..fin];
      TrancheTriee(tableau, valeurs, tries, fin);
    }

    /** All four boards, each listing exactly its entries once (in some order). */
    method ToSnapshot() returns (s: map<TypeClassement, seq<EntreeClassement>>)
      requires Valid()
      ensures forall t: TypeClassement :: t in s && ListeFidele(s[t], classements[t])
    {
      s := map[Quotidien := [], Hebdomadaire := [], Mensuel := [], Global := []];
      ToutesLesClesPresentes(s);
      var i := 0;
      while i < |TypesClassement|
        invariant 0 <= i <= |TypesClassement|
        invariant forall t: TypeClassement :: t in s
        invariant forall k :: 0 <= k < i ==> ListeFidele(s[TypesClassement[k]], classements[TypesClassement[k]])
      {
        var typ := TypesClassement[i];
        var liste := ValeursDe(classements[typ]);
        s := s[typ := liste];
        i := i + 1;
      }
      forall t: TypeClassement ensures ListeFidele(s[t], classements[t]) {
        assert t == TypesClassement[0] || t == TypesClassement[1] || t == TypesClassement[2] || t == TypesClassement[3];
      }
    }
  }

  /** `liste` holds each entry of the board exactly once and nothing else. */
  ghost predicate ListeFidele(liste: seq<EntreeClassement>, t: Tableau)
  {
    |liste| == |t| &&
    (forall e :: e in liste <==> e in EntreesTableau(t)) &&
    (forall i, j :: 0 <= i < j < |liste| ==> liste[i].utilisateurId != liste[j].utilisateurId)
  }

  /** `Array.from(classement.values())`: the board's entries, each once. */
  method ValeursDe(t: Tableau) returns (liste: seq<EntreeClassement>)
    requires TableauBienForme(t)
    ensures ListeFidele(liste, t)
  {
    liste := [];
    var restants := t.Keys;
    while restants != {}
      invariant restants <= t.Keys
      invariant |liste| + |restants| == |t|
      invariant forall e :: e in liste <==> e.utilisateurId in t.Keys - restants && t[e.utilisateurId] == e
      invariant forall i, j :: 0 <= i < j < |liste| ==> liste[i].utilisateurId != liste[j].utilisateurId
      decreases |restants|
    {
      var u :| u in restants;
      liste := liste + [t[u]];
      restants := restants - {u};
    }
    assert restants == {};
    assert t.Keys - restants == t.Keys;
    assert |t.Keys| == |t|;
  }

  /** The first `fin` entries of a sorted listing of a board are its `fin` best, each once. */
  lemma TrancheTriee(tableau: Tableau, valeurs: seq<EntreeClassement>, tries: seq<EntreeClassement>, fin: nat)
    requires ListeFidele(valeurs, tableau)
    requires Decroissant(tries) && multiset(tries) == multiset(valeurs)
    requires fin <= |tries|
    ensures Decroissant(tries[..fin])
    ensures forall i :: 0 <= i < fin ==> tries[i] in EntreesTableau(tableau)
    ensures forall i, j :: 0 <= i < j < fin ==> tries[i].utilisateurId != tries[j].utilisateurId
    ensures forall u :: u in tableau && tableau[u] !in tries[..fin] ==>
              forall i :: 0 <= i < fin ==> tableau[u].points <= tries[i].points
  {
    assert forall e :: e in tries <==> e in valeurs by {
      forall e ensures e in tries <==> e in valeurs {
        assert e in tries <==> e in multiset(tries);
      }
    }
    SansDoublonTrie(valeurs, tries);
    var r := tries[..fin];
    forall u | u in tableau && tableau[u] !in r
      ensures forall i :: 0 <= i < fin ==> tableau[u].points <= tries[i].points
    {
      assert tableau[u] in EntreesTableau(tableau);
      assert tableau[u] in tries;
      var k :| 0 <= k < |tries| && tries[k] == tableau[u];
      assert k >= fin;
    }
  }

  /** Sorting a list with distinct user ids keeps them distinct. */
  lemma SansDoublonTrie(valeurs: seq<EntreeClassement>, tries: seq<EntreeClassement>)
    requires multiset(tries) == multiset(valeurs)
    requires forall i, j :: 0 <= i < j < |valeurs| ==> valeurs[i].utilisateurId != valeurs[j].utilisateurId
    ensures forall i, j :: 0 <= i < j < |tries| ==> tries[i].utilisateurId != tries[j].utilisateurId
  {
    forall i, j | 0 <= i < j < |tries|
      ensures tries[i].utilisateurId != tries[j].utilisateurId
    {
      if tries[i].utilisateurId == tries[j].utilisateurId {
        assert tries[i] in multiset(valeurs) && tries[j] in multiset(valeurs);
        var a :| 0 <= a < |valeurs| && valeurs[a] == tries[i];
        var b :| 0 <= b < |valeurs| && valeurs[b] == tries[j];
        assert a == b;
        assert tries[i] == tries[j];
        assert multiset(tries)[tries[i]] >= 2 by {
          assert tries == tries[..j] + tries[j..];
          assert tries[i] in tries[..j];
          assert multiset(tries) == multiset(tries[..j]) + multiset(tries[j..]);
        }
        MultiplicitePlusUn(valeurs, a);
        assert false;
      }
    }
  }

  /** An element at one position only of a list with distinct ids occurs once. */
  lemma MultiplicitePlusUn(valeurs: seq<EntreeClassement>, a: int)
    requires 0 <= a < |valeurs|
    requires forall i, j :: 0 <= i < j < |valeurs| ==> valeurs[i].utilisateurId != valeurs[j].utilisateurId
    ensures multiset(valeurs)[valeurs[a]] == 1
  {
    assert valeurs == valeurs[..a] + [valeurs[a]] + valeurs[a + 1..];
    assert valeurs[a] !in valeurs[..a];
    assert valeurs[a] !in valeurs[a + 1..];
  }

  // ---------------------------------------------------------------------------
  // the two unit scenarios of the ledger

  /** Scoring 10 then 5 for one user puts a single entry of 15 at the top. */
  method ExempleAgregation() returns (top: seq<EntreeClassement>)
    ensures |top| == 1 && top[0].utilisateurId == "utilisateurA" && top[0].points == 15.0
  {
    var service := new ServiceClassements();
    service.AjouterScore(Quotidien, "utilisateurA", 10.0, "t0");
    service.AjouterScore(Quotidien, "utilisateurA", 5.0, "t1");
    top := service.ObtenirTop(Quotidien, None);
    assert EntreesTableau(service.classements[Quotidien]) == {EntreeClassement("utilisateurA", 15.0, "t1")};
  }

  /** With A at 10 and B at 12, the top one is B. */
  method ExempleTopUn() returns (top: seq<EntreeClassement>)
    ensures |top| == 1 && top[0].utilisateurId == "utilisateurB"
  {
    var service := new ServiceClassements();
    service.AjouterScore(Global, "utilisateurA", 10.0, "t0");
    service.AjouterScore(Global, "utilisateurB", 12.0, "t1");
    top := service.ObtenirTop(Global, Some(1));
    var a := EntreeClassement("utilisateurA", 10.0, "t0");
    var b := EntreeClassement("utilisateurB", 12.0, "t1");
    assert service.classements[Global]["utilisateurA"] == a;
    assert service.classements[Global]["utilisateurB"] == b;
    assert EntreesTableau(service.classements[Global]) == {a, b};
    assert |service.classements[Global]| == 2;
  }
}
