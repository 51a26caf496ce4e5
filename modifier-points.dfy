/**
 * The `/modifier-points` admin command: set a member's score to a value, or
 * add to it, on one leaderboard or on all four.
 */
module ModifierPoints {
  import opened Commun
  import opened Classements

  datatype IssueModification =
    | HorsServeur
    | NonAutorise
    | ParametresManquants
    | Modifie(types: seq<TypeClassement>)

  /** The score a board should end at: `valeur` when given, else the current score plus `ajout`. */
  function Cible(actuel: real, valeur: Option<int>, ajout: Option<int>): real
  {
    if valeur.Some? then valeur.valeur as real else actuel + ajout.GetOr(0) as real
  }

  /** One board after the adjustment: the difference is credited only when non-zero. */
  function Ajuster(t: Tableau, u: string, valeur: Option<int>, ajout: Option<int>, maintenant: string): (r: Tableau)
    ensures TotalActuel(r, u) == Cible(TotalActuel(t, u), valeur, ajout)
    ensures forall v :: v != u ==> (v in r <==> v in t) && (v in t ==> r[v] == t[v])
    ensures TableauBienForme(t) ==> TableauBienForme(r)
  {
    var actuel := TotalActuel(t, u);
    var diff := Cible(actuel, valeur, ajout) - actuel;
    if diff == 0.0 then t else Crediter(t, u, diff, maintenant)
  }

  /** The boards the command touches: the chosen one, or all four in fixed order. */
  function TypesVises(typeChoisi: Option<TypeClassement>): (r: seq<TypeClassement>)
    ensures forall t: TypeClassement :: t in r <==> (typeChoisi.None? || typeChoisi.valeur == t)
  {
    assert forall t: TypeClassement :: t in TypesClassement by {
      forall t: TypeClassement ensures t in TypesClassement {
        assert TypesClassement[Rang(t)] == t;
      }
    }
    if typeChoisi.Some? then [typeChoisi.valeur] else TypesClassement
  }

  /**
   * `executer`: the refusals, then the per-board set-or-add loop. `gerant`
   * says whether the caller holds the Manage Server permission.
   */
  method Executer(service: ServiceClassements, guildId: Option<string>, gerant: bool, membre: string,
                  valeur: Option<int>, ajout: Option<int>, typeChoisi: Option<TypeClassement>, maintenant: string)
    returns (issue: IssueModification)
    requires service.Valid()
    modifies service
    ensures service.Valid()
    ensures issue.HorsServeur? <==> guildId.None?
    ensures issue.NonAutorise? <==> guildId.Some? && !gerant
    ensures issue.ParametresManquants? <==> guildId.Some? && gerant && valeur.None? && ajout.None?
    ensures !issue.Modifie? ==> service.classements == old(service.classements)
    ensures issue.Modifie? ==> issue.types == TypesVises(typeChoisi)
    ensures issue.Modifie? ==> forall t: TypeClassement ::
              service.classements[t] == if t in issue.types then Ajuster(old(service.classements)[t], membre, valeur, ajout, maintenant)
                                        else old(service.classements)[t]
  {
    if guildId.None? {
      return HorsServeur;
    }
    if !gerant {
      return NonAutorise;
    }
    if valeur.None? && ajout.None? {
      return ParametresManquants;
    }
    var types := TypesVises(typeChoisi);
    var i := 0;
    while i < |types|
      invariant 0 <= i <= |types|
      invariant service.Valid()
      invariant forall t: TypeClassement ::
                  service.classements[t] == if t in types[..i] then Ajuster(old(service.classements)[t], membre, valeur, ajout, maintenant)
                                            else old(service.classements)[t]
    {
      var typ := types[i];
      assert typ !in types[..i];
      AjusterUn(service, typ, membre, valeur, ajout, maintenant);
      assert types[..i + 1] == types[..i] + [typ];
      i := i + 1;
    }
    assert types[..i] == types;
    issue := Modifie(types);
  }

  /** One iteration of the loop: reads the current entry and credits the difference to the target. */
  method AjusterUn(service: ServiceClassements, typ: TypeClassement, membre: string,
                   valeur: Option<int>, ajout: Option<int>, maintenant: string)
    requires service.Valid()
    requires valeur.Some? || ajout.Some?
    modifies service
    ensures service.Valid()
    ensures service.classements == old(service.classements)[typ := Ajuster(old(service.classements)[typ], membre, valeur, ajout, maintenant)]
  {
    var entree := service.ObtenirScoreUtilisateur(typ, membre);
    var pointsActuels := if entree.Some? then entree.valeur.points else 0.0;
    var nouveau := if valeur.Some? then valeur.valeur as real else pointsActuels + ajout.GetOr(0) as real;
    var diff := nouveau - pointsActuels;
    if diff != 0.0 {
      service.AjouterScore(typ, membre, diff, maintenant);
    } else {
      assert old(service.classements)[typ := old(service.classements)[typ]] == old(service.classements);
    }
  }

  /** Each targeted board ends at exactly the target; a missing entry counts as zero. */
  lemma AjusterAtteintCible(t: Tableau, u: string, valeur: Option<int>, ajout: Option<int>, maintenant: string)
    ensures valeur.Some? ==> TotalActuel(Ajuster(t, u, valeur, ajout, maintenant), u) == valeur.valeur as real
    ensures valeur.None? && u !in t ==> TotalActuel(Ajuster(t, u, valeur, ajout, maintenant), u) == ajout.GetOr(0) as real
  {
  }

  /** Setting a value twice changes nothing the second time. */
  lemma FixerIdempotent(t: Tableau, u: string, v: int, ajout: Option<int>, m1: string, m2: string)
    ensures var une := Ajuster(t, u, Some(v), ajout, m1);
            Ajuster(une, u, Some(v), ajout, m2) == une
  {
  }

  /** A zero addition leaves the board exactly as it was. */
  lemma AjoutNulSansEffet(t: Tableau, u: string, maintenant: string)
    ensures Ajuster(t, u, None, Some(0), maintenant) == t
  {
  }
}
