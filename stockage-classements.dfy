/**
 * Reading the persisted leaderboards back: untrusted JSON becomes a record
 * with all four boards, keeping only well-formed entries in their order.
 */
module StockageClassements {
  import opened Commun
  import opened Json
  import opened Classements

  /** Persisted form: one list of entries per board type. */
  type Snapshot = map<TypeClassement, seq<EntreeClassement>>

  /** The JSON object an entry is written as. */
  function EntreeVersJson(e: EntreeClassement): JsValue
  {
    JObj(map["utilisateurId" := JStr(e.utilisateurId),
             "points" := JNum(Fini(e.points)),
             "derniereMiseAJour" := JStr(e.derniereMiseAJour)])
  }

  function ListeVersJson(l: seq<EntreeClassement>): (r: seq<JsValue>)
    ensures |r| == |l|
    ensures forall i :: 0 <= i < |l| ==> r[i] == EntreeVersJson(l[i])
  {
    if |l| == 0 then [] else ListeVersJson(l[..|l| - 1]) + [EntreeVersJson(l[|l| - 1])]
  }

  /** The JSON document a snapshot is written as. */
  function SnapshotVersJson(s: Snapshot): JsValue
    requires ToutesLesCles(s)
  {
    JObj(map["quotidien" := JArr(ListeVersJson(s[Quotidien])),
             "hebdomadaire" := JArr(ListeVersJson(s[Hebdomadaire])),
             "mensuel" := JArr(ListeVersJson(s[Mensuel])),
             "global" := JArr(ListeVersJson(s[Global]))])
  }

  /**
   * One raw entry: an object whose `utilisateurId` and `derniereMiseAJour`
   * are strings and whose `points` is a finite number (ledger points are
   * reals, so an infinite value is dropped like NaN).
   */
  function NormaliserEntree(v: JsValue): (r: Option<EntreeClassement>)
    ensures r.Some? ==> EstObjet(v) && Champ(v, "utilisateurId") == JStr(r.valeur.utilisateurId)
                        && Champ(v, "points") == JNum(Fini(r.valeur.points))
                        && Champ(v, "derniereMiseAJour") == JStr(r.valeur.derniereMiseAJour)
    ensures r.None? ==> !EstObjet(v) || !EstChaine(Champ(v, "utilisateurId")) || !EstNombreFini(Champ(v, "points"))
                        || !EstChaine(Champ(v, "derniereMiseAJour"))
  {
    if !EstObjet(v) then None
    else
      var u, p, d := Champ(v, "utilisateurId"), Champ(v, "points"), Champ(v, "derniereMiseAJour");
      if !u.JStr? || !EstNombreFini(p) || !d.JStr? then None
      else Some(EntreeClassement(u.s, p.n.valeur, d.s))
  }

  /** The well-formed entries of a raw list, in their order. */
  function Filtrer(source: seq<JsValue>): (r: seq<EntreeClassement>)
    ensures |r| <= |source|
  {
    if |source| == 0 then []
    else
      var debut := Filtrer(source[..|source| - 1]);
      var derniere := NormaliserEntree(source[|source| - 1]);
      if derniere.Some? then debut + [derniere.valeur] else debut
  }

  /** `Array.isArray(brut[type]) ? brut[type] : []`. */
  function ListeSource(value: JsValue, typ: TypeClassement): seq<JsValue>
  {
    var champ := Champ(value, TypeTexte(typ));
    if champ.JArr? then champ.elements else []
  }

  /** Each board of the result is the filtered raw list of that type; a non-object gives four empty boards. */
  method NormaliserClassements(value: JsValue) returns (resultat: Snapshot)
    ensures ToutesLesCles(resultat)
    ensures forall t: TypeClassement :: t in resultat && resultat[t] == Filtrer(ListeSource(value, t))
    ensures !EstObjet(value) ==> forall t: TypeClassement :: resultat[t] == []
  {
    resultat := map[Quotidien := [], Hebdomadaire := [], Mensuel := [], Global := []];
    ToutesLesClesPresentes(resultat);
    assert Rempli(value, resultat, 0);
    if !EstObjet(value) {
      forall t: TypeClassement ensures ListeSource(value, t) == [] {
        assert Entrees(value) == map[];
      }
      return;
    }
    var i := 0;
    while i < |TypesClassement|
      invariant 0 <= i <= |TypesClassement|
      invariant Rempli(value, resultat, i)
    {
      var typ := TypesClassement[i];
      var normalises := FiltrerListe(ListeSource(value, typ));
      RempliEtape(value, resultat, i, normalises);
      if |normalises| != 0 {
        resultat := resultat[typ := normalises];
      }
      i := i + 1;
    }
  }

  /** The boards before rank `i` are filled, the others still empty. */
  predicate Rempli(value: JsValue, resultat: Snapshot, i: int)
  {
    ToutesLesCles(resultat) && forall t: TypeClassement :: resultat[t] == if Rang(t) < i then Filtrer(ListeSource(value, t)) else []
  }

  lemma RempliEtape(value: JsValue, resultat: Snapshot, i: nat, normalises: seq<EntreeClassement>)
    requires i < |TypesClassement| && Rempli(value, resultat, i)
    requires normalises == Filtrer(ListeSource(value, TypesClassement[i]))
    ensures Rempli(value, if |normalises| != 0 then resultat[TypesClassement[i] := normalises] else resultat, i + 1)
  {
    var typ := TypesClassement[i];
    assert Rang(typ) == i;
  }

  /** The loop pushing every well-formed entry of one raw list. */
  method FiltrerListe(source: seq<JsValue>) returns (normalises: seq<EntreeClassement>)
    ensures normalises == Filtrer(source)
  {
    normalises := [];
    var j := 0;
    while j < |source|
      invariant 0 <= j <= |source|
      invariant normalises == Filtrer(source[..j])
    {
      FiltrerEtape(source, j);
      var entree := NormaliserEntree(source[j]);
      if entree.Some? {
        normalises := normalises + [entree.valeur];
      }
      j := j + 1;
    }
    assert source[..|source|] == source;
  }

  lemma FiltrerEtape(source: seq<JsValue>, j: nat)
    requires j < |source|
    ensures var e := NormaliserEntree(source[j]);
            Filtrer(source[..j + 1]) == if e.Some? then Filtrer(source[..j]) + [e.valeur] else Filtrer(source[..j])
  {
    assert source[..j + 1][..j] == source[..j];
  }

  /** Every kept entry is the normal form of some raw entry. */
  lemma {:induction false} FiltrerProvenance(source: seq<JsValue>)
    ensures forall e :: e in Filtrer(source) ==> exists v :: v in source && NormaliserEntree(v) == Some(e)
  {
    if |source| > 0 {
      var debut := source[..|source| - 1];
      FiltrerProvenance(debut);
      forall e | e in Filtrer(source) ensures exists v :: v in source && NormaliserEntree(v) == Some(e) {
        if e in Filtrer(debut) {
          var v :| v in debut && NormaliserEntree(v) == Some(e);
          assert v in source;
        } else {
          assert NormaliserEntree(source[|source| - 1]) == Some(e);
        }
      }
    }
  }

  /** A copy of every board, entry by entry. */
  method CloneState(state: Snapshot) returns (clone: Snapshot)
    requires ToutesLesCles(state)
    ensures clone == state
  {
    clone := map[Quotidien := [], Hebdomadaire := [], Mensuel := [], Global := []];
    ToutesLesClesPresentes(clone);
    ToutesLesClesPresentes(state);
    var i := 0;
    while i < |TypesClassement|
      invariant 0 <= i <= |TypesClassement|
      invariant clone.Keys == state.Keys
      invariant forall k :: 0 <= k < i ==> clone[TypesClassement[k]] == state[TypesClassement[k]]
    {
      var typ := TypesClassement[i];
      var source := state[typ];
      var copie: seq<EntreeClassement> := [];
      var j := 0;
      while j < |source|
        invariant 0 <= j <= |source|
        invariant copie == source[..j]
      {
        var entree := source[j];
        copie := copie + [EntreeClassement(entree.utilisateurId, entree.points, entree.derniereMiseAJour)];
        j := j + 1;
      }
      clone := clone[typ := copie];
      i := i + 1;
    }
    forall t: TypeClassement ensures clone[t] == state[t] {
      assert t == TypesClassement[0] || t == TypesClassement[1] || t == TypesClassement[2] || t == TypesClassement[3];
    }
  }

  // ---------------------------------------------------------------------------
  // properties

  /** Filtering respects concatenation, so kept entries stay in input order. */
  lemma {:induction false} FiltrerConcat(a: seq<JsValue>, b: seq<JsValue>)
    ensures Filtrer(a + b) == Filtrer(a) + Filtrer(b)
    decreases |b|
  {
    if |b| == 0 {
      assert a + b == a;
    } else {
      var b' := b[..|b| - 1];
      assert (a + b)[..|a + b| - 1] == a + b';
      assert (a + b)[|a + b| - 1] == b[|b| - 1];
      FiltrerConcat(a, b');
    }
  }

  lemma NormaliserEntreeVersJson(e: EntreeClassement)
    ensures NormaliserEntree(EntreeVersJson(e)) == Some(e)
  {
    var v := EntreeVersJson(e);
    assert Champ(v, "utilisateurId") == JStr(e.utilisateurId);
    assert Champ(v, "points") == JNum(Fini(e.points));
    assert Champ(v, "derniereMiseAJour") == JStr(e.derniereMiseAJour);
  }

  lemma {:induction false} FiltrerListeVersJson(l: seq<EntreeClassement>)
    ensures Filtrer(ListeVersJson(l)) == l
  {
    if |l| > 0 {
      var j := ListeVersJson(l);
      assert j[..|j| - 1] == ListeVersJson(l[..|l| - 1]);
      FiltrerListeVersJson(l[..|l| - 1]);
      NormaliserEntreeVersJson(l[|l| - 1]);
      assert l == l[..|l| - 1] + [l[|l| - 1]];
    }
  }

  /** Each board is written under its own name. */
  lemma ListeSourceVersJson(s: Snapshot, t: TypeClassement)
    requires ToutesLesCles(s)
    ensures ListeSource(SnapshotVersJson(s), t) == ListeVersJson(s[t])
  {
    ToutesLesClesPresentes(s);
    var champs := SnapshotVersJson(s).champs;
    match t
    case Quotidien =>
      assert champs["quotidien"] == JArr(ListeVersJson(s[Quotidien]));
    case Hebdomadaire =>
      assert champs["hebdomadaire"] == JArr(ListeVersJson(s[Hebdomadaire]));
    case Mensuel =>
      assert champs["mensuel"] == JArr(ListeVersJson(s[Mensuel]));
    case Global =>
      assert champs["global"] == JArr(ListeVersJson(s[Global]));
  }

  /** Writing a snapshot as JSON and normalising it back gives the same snapshot. */
  lemma NormaliserSnapshotVersJson(s: Snapshot)
    requires ToutesLesCles(s)
    ensures forall t: TypeClassement :: Filtrer(ListeSource(SnapshotVersJson(s), t)) == s[t]
  {
    ToutesLesClesPresentes(s);
    forall t: TypeClassement ensures Filtrer(ListeSource(SnapshotVersJson(s), t)) == s[t] {
      ListeSourceVersJson(s, t);
      FiltrerListeVersJson(s[t]);
    }
  }
}
