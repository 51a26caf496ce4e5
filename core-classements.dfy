/**
 * The process-wide ledger: created on first use and filled from the persisted
 * snapshot, by replaying every acceptable entry through `AjouterScore`.
 */
module CoreClassements {
  import opened Commun
  import opened Json
  import opened Classements
  import opened StockageClassements

  /** Snapshot entries as restored: each is an untrusted value. */
  type SnapshotBrut = map<TypeClassement, seq<JsValue>>

  /** The type guard: an object with string id, numeric points and string timestamp. */
  predicate EstEntreeClassement(v: JsValue)
  {
    EstObjet(v) &&
    EstChaine(Champ(v, "utilisateurId")) &&
    Champ(v, "points").JNum? &&
    EstChaine(Champ(v, "derniereMiseAJour"))
  }

  /** The user and points of an entry restore replays, if it replays one. */
  function Rejouee(v: JsValue): (r: Option<(string, real)>)
    ensures r.Some? ==> EstEntreeClassement(v) && r.valeur.1 > 0.0
                        && Champ(v, "utilisateurId") == JStr(r.valeur.0)
                        && Champ(v, "points") == JNum(Fini(r.valeur.1))
    ensures r.None? ==> !EstEntreeClassement(v) || (var p := Champ(v, "points").n; !p.Fini? || p.valeur <= 0.0)
  {
    if !EstEntreeClassement(v) then None
    else
      var p := Champ(v, "points").n;
      if p.Fini? && p.valeur > 0.0 then Some((Champ(v, "utilisateurId").s, p.valeur)) else None
  }

  /** A board after replaying `entrees` in order onto `t`. */
  function Restaurer(t: Tableau, entrees: seq<JsValue>, maintenant: string): Tableau
  {
    if |entrees| == 0 then t
    else
      var avant := Restaurer(t, entrees[..|entrees| - 1], maintenant);
      var r := Rejouee(entrees[|entrees| - 1]);
      if r.Some? then Crediter(avant, r.valeur.0, r.valeur.1, maintenant) else avant
  }

  /** Replays every board of the snapshot through `AjouterScore`. */
  method InitialiserDepuisSnapshot(service: ServiceClassements, snapshot: SnapshotBrut, maintenant: string)
    requires service.Valid() && ToutesLesCles(snapshot)
    modifies service
    ensures service.Valid()
    ensures forall t: TypeClassement :: service.classements[t] == Restaurer(old(service.classements[t]), snapshot[t], maintenant)
  {
    var i := 0;
    while i < |TypesClassement|
      invariant 0 <= i <= |TypesClassement|
      invariant service.Valid()
      invariant forall t: TypeClassement :: service.classements[t] ==
                  if Rang(t) < i then Restaurer(old(service.classements[t]), snapshot[t], maintenant)
                  else old(service.classements[t])
    {
      var typ := TypesClassement[i];
      assert Rang(typ) == i;
      RejouerListe(service, typ, snapshot[typ], maintenant);
      i := i + 1;
    }
  }

  /** The inner loop: every acceptable entry of one list goes through `AjouterScore`. */
  method RejouerListe(service: ServiceClassements, typ: TypeClassement, entrees: seq<JsValue>, maintenant: string)
    requires service.Valid()
    modifies service
    ensures service.Valid()
    ensures service.classements == old(service.classements)[typ := Restaurer(old(service.classements)[typ], entrees, maintenant)]
  {
    var j := 0;
    while j < |entrees|
      invariant 0 <= j <= |entrees|
      invariant service.Valid()
      invariant service.classements == old(service.classements)[typ := Restaurer(old(service.classements)[typ], entrees[..j], maintenant)]
    {
      var entree := entrees[j];
      assert entrees[..j + 1][..j] == entrees[..j];
      var r := Rejouee(entree);
      if r.Some? {
        service.AjouterScore(typ, r.valeur.0, r.valeur.1, maintenant);
      }
      j := j + 1;
    }
    assert entrees[..|entrees|] == entrees;
  }

  /** The lazily created ledger of the process. */
  class RegistreClassements {
    var instance: ServiceClassements?

    ghost predicate Valid()
      reads this, instance
    {
      instance != null ==> instance.Valid()
    }

    constructor()
      ensures instance == null
    {
      instance := null;
    }

    /**
     * The existing ledger, untouched; or, on first use, a new one filled from
     * `lecture` (the persisted snapshot read from disk).
     */
    method ObtenirServiceClassements(lecture: SnapshotBrut, maintenant: string) returns (service: ServiceClassements)
      requires Valid() && ToutesLesCles(lecture)
      modifies this
      ensures Valid() && instance == service
      ensures old(instance) != null ==> service == old(instance) && unchanged(service)
      ensures old(instance) == null ==>
                fresh(service) && forall t: TypeClassement :: service.classements[t] == Restaurer(map[], lecture[t], maintenant)
    {
      if instance == null {
        var nouveau := new ServiceClassements();
        InitialiserDepuisSnapshot(nouveau, lecture, maintenant);
        instance := nouveau;
      }
      service := instance;
    }

    /** The snapshot written to disk, or None (nothing written) when no ledger exists yet. */
    method SauvegarderClassementsActuels() returns (ecrit: Option<Snapshot>)
      requires Valid()
      ensures ecrit.None? <==> instance == null
      ensures ecrit.Some? ==> forall t: TypeClassement :: t in ecrit.valeur && ListeFidele(ecrit.valeur[t], instance.classements[t])
    {
      if instance == null {
        return None;
      }
      var s := instance.ToSnapshot();
      ecrit := Some(s);
    }
  }

  // ---------------------------------------------------------------------------
  // properties of restore

  /** An entry of the wrong shape, or with no positive points, leaves the board as it was. */
  lemma RestaurerIgnore(t: Tableau, entrees: seq<JsValue>, v: JsValue, maintenant: string)
    requires !EstEntreeClassement(v) || (Champ(v, "points").JNum? && Champ(v, "points").n.Fini? && Champ(v, "points").n.valeur <= 0.0)
    ensures Restaurer(t, entrees + [v], maintenant) == Restaurer(t, entrees, maintenant)
  {
    assert (entrees + [v])[..|entrees|] == entrees;
  }

  /** A written entry replays exactly when its points are positive. */
  lemma RejoueeVersJson(e: EntreeClassement)
    ensures Rejouee(EntreeVersJson(e)) == if e.points > 0.0 then Some((e.utilisateurId, e.points)) else None
  {
    var v := EntreeVersJson(e);
    assert Champ(v, "utilisateurId") == JStr(e.utilisateurId);
    assert Champ(v, "points") == JNum(Fini(e.points));
    assert Champ(v, "derniereMiseAJour") == JStr(e.derniereMiseAJour);
  }

  /** Two entries for one user are summed. */
  lemma RestaurerAdditionneDoublons(t: Tableau, e1: EntreeClassement, e2: EntreeClassement, maintenant: string)
    requires e1.utilisateurId == e2.utilisateurId && e1.points > 0.0 && e2.points > 0.0
    ensures var r := Restaurer(t, [EntreeVersJson(e1), EntreeVersJson(e2)], maintenant);
            TotalActuel(r, e1.utilisateurId) == TotalActuel(t, e1.utilisateurId) + e1.points + e2.points
  {
    var u := e1.utilisateurId;
    var l := [EntreeVersJson(e1), EntreeVersJson(e2)];
    assert l[..1] == [EntreeVersJson(e1)];
    assert l[..1][..0] == [];
    NormaliserEntreeVersJson(e1);
    NormaliserEntreeVersJson(e2);
    RejoueeVersJson(e1);
    RejoueeVersJson(e2);
    var l1 := l[..1];
    assert Restaurer(t, l1[..0], maintenant) == t;
    assert l1[0] == EntreeVersJson(e1);
    var apres1 := Restaurer(t, l1, maintenant);
    assert apres1 == Crediter(t, u, e1.points, maintenant);
    assert Restaurer(t, l, maintenant) == Crediter(apres1, u, e2.points, maintenant);
  }

  /** What restoring a listing of entries with distinct users into empty boards yields. */
  function Attendu(liste: seq<EntreeClassement>, maintenant: string): Tableau
  {
    if |liste| == 0 then map[]
    else
      var e := liste[|liste| - 1];
      var a := Attendu(liste[..|liste| - 1], maintenant);
      if e.points > 0.0 then a[e.utilisateurId := e.(derniereMiseAJour := maintenant)] else a
  }

  lemma {:induction false} AttenduCles(liste: seq<EntreeClassement>, maintenant: string, u: string)
    ensures u in Attendu(liste, maintenant) <==> exists i :: 0 <= i < |liste| && liste[i].utilisateurId == u && liste[i].points > 0.0
  {
    if |liste| > 0 {
      var debut := liste[..|liste| - 1];
      AttenduCles(debut, maintenant, u);
      if u in Attendu(liste, maintenant) && u !in Attendu(debut, maintenant) {
        assert liste[|liste| - 1].utilisateurId == u;
      }
      if exists i :: 0 <= i < |liste| && liste[i].utilisateurId == u && liste[i].points > 0.0 {
        var i :| 0 <= i < |liste| && liste[i].utilisateurId == u && liste[i].points > 0.0;
        if i < |liste| - 1 {
          assert debut[i] == liste[i];
        }
      }
    }
  }

  lemma {:induction false} RestaurerListe(liste: seq<EntreeClassement>, maintenant: string)
    requires forall i, j :: 0 <= i < j < |liste| ==> liste[i].utilisateurId != liste[j].utilisateurId
    ensures Restaurer(map[], ListeVersJson(liste), maintenant) == Attendu(liste, maintenant)
  {
    if |liste| > 0 {
      var n := |liste| - 1;
      var debut := liste[..n];
      var j := ListeVersJson(liste);
      assert j[..n] == ListeVersJson(debut);
      RestaurerListe(debut, maintenant);
      var e := liste[n];
      RejoueeVersJson(e);
      AttenduCles(debut, maintenant, e.utilisateurId);
      assert e.utilisateurId !in Attendu(debut, maintenant);
    }
  }

  /** The board of entries with positive points, restamped by the restore. */
  ghost function Positifs(t: Tableau, maintenant: string): Tableau
  {
    map u | u in t && t[u].points > 0.0 :: t[u].(derniereMiseAJour := maintenant)
  }

  /**
   * Taking a snapshot of a board and restoring it into a fresh ledger gives
   * back every user whose total is positive, with the same total, and no one
   * else; only the timestamps are those of the restore.
   */
  lemma SnapshotPuisRestaurer(t: Tableau, liste: seq<EntreeClassement>, maintenant: string)
    requires TableauBienForme(t) && ListeFidele(liste, t)
    ensures Restaurer(map[], ListeVersJson(liste), maintenant) == Positifs(t, maintenant)
  {
    RestaurerListe(liste, maintenant);
    var a := Attendu(liste, maintenant);
    forall u ensures u in a <==> u in Positifs(t, maintenant) {
      AttenduCles(liste, maintenant, u);
      if u in t && t[u].points > 0.0 {
        assert t[u] in EntreesTableau(t);
        assert t[u] in liste;
        var i :| 0 <= i < |liste| && liste[i] == t[u];
        assert liste[i].utilisateurId == u;
      }
      if u in a {
        var i :| 0 <= i < |liste| && liste[i].utilisateurId == u && liste[i].points > 0.0;
        assert liste[i] in EntreesTableau(t);
        var v :| v in t && t[v] == liste[i];
      }
    }
    forall u | u in a ensures a[u] == Positifs(t, maintenant)[u] {
      AttenduValeur(liste, maintenant, u);
      var i :| 0 <= i < |liste| && liste[i].utilisateurId == u && a[u] == liste[i].(derniereMiseAJour := maintenant);
      assert liste[i] in EntreesTableau(t);
      var v :| v in t && t[v] == liste[i];
    }
  }

  lemma {:induction false} AttenduValeur(liste: seq<EntreeClassement>, maintenant: string, u: string)
    requires u in Attendu(liste, maintenant)
    ensures exists i :: 0 <= i < |liste| && liste[i].utilisateurId == u
              && Attendu(liste, maintenant)[u] == liste[i].(derniereMiseAJour := maintenant)
  {
    var n := |liste| - 1;
    var e := liste[n];
    var debut := liste[..n];
    if e.points > 0.0 && e.utilisateurId == u {
      assert Attendu(liste, maintenant)[u] == liste[n].(derniereMiseAJour := maintenant);
    } else {
      AttenduValeur(debut, maintenant, u);
      var i :| 0 <= i < |debut| && debut[i].utilisateurId == u
               && Attendu(debut, maintenant)[u] == debut[i].(derniereMiseAJour := maintenant);
      assert liste[i] == debut[i];
    }
  }
}
