/**
 * Reading the persisted question sets back: untrusted JSON becomes a snapshot
 * of days, each kept only with a valid question for all three tiers.
 */
module StockageQuestions {
  import opened Commun
  import opened Json
  import opened ServiceQuestionsDuJour

  // ---------------------------------------------------------------------------
  // participants

  function ParticipantTimeout(repliDate: string): Participation
  {
    Participation(None, Timeout, repliDate)
  }

  /** The oldest format: an array of user ids, each read as a timeout. */
  function DepuisListe(elements: seq<JsValue>, repliDate: string): (r: ParticipantsGuilde)
    ensures forall u :: u in r <==> JStr(u) in elements
    ensures forall u | u in r :: r[u] == ParticipantTimeout(repliDate)
  {
    if |elements| == 0 then map[]
    else
      var debut := DepuisListe(elements[..|elements| - 1], repliDate);
      var dernier := elements[|elements| - 1];
      assert elements == elements[..|elements| - 1] + [dernier];
      if dernier.JStr? then debut[dernier.s := ParticipantTimeout(repliDate)] else debut
  }

  /** One value of a flat record; reading a field of `null` throws, so null gives None. */
  function ParticipationStockee(v: JsValue, repliDate: string): (r: Option<Participation>)
    ensures r.None? <==> v.JNull? || v.JUndefined?
    ensures r.Some? ==> r.valeur.reponse == OptionChaine(Champ(v, "reponse"))
    ensures r.Some? && !(Champ(v, "statut").JStr? && StatutDepuisTexte(Champ(v, "statut").s).Some?) ==> r.valeur.statut == Incorrect
    ensures r.Some? ==> r.valeur.reponduLe == ChaineOu(Champ(v, "reponduLe"), repliDate)
  {
    if v.JNull? || v.JUndefined? then None
    else
      var s := Champ(v, "statut");
      var statut := if s.JStr? && StatutDepuisTexte(s.s).Some? then StatutDepuisTexte(s.s).valeur else Incorrect;
      Some(Participation(OptionChaine(Champ(v, "reponse")), statut, ChaineOu(Champ(v, "reponduLe"), repliDate)))
  }

  /** A flat record of participations: every field read as one participation, or None if one is null. */
  function NormaliserPlat(e: map<string, JsValue>, repliDate: string): (r: Option<ParticipantsGuilde>)
    ensures r.None? <==> exists k | k in e :: e[k].JNull? || e[k].JUndefined?
    ensures r.Some? ==> r.valeur.Keys == e.Keys
  {
    if exists k | k in e :: e[k].JNull? || e[k].JUndefined? then None
    else Some(map k | k in e :: ParticipationStockee(e[k], repliDate).valeur)
  }

  /**
   * `normaliserParticipants` as written: an object is always read as a flat
   * record of participations, which flattens the per-guild records the
   * manager writes.
   */
  function NormaliserParticipantsTelQuEcrit(valeur: JsValue, repliDate: string): (r: Option<ParticipantsGuilde>)
    ensures !EstObjet(valeur) ==> r == Some(map[])
    ensures valeur.JObj? && r.Some? ==> r.valeur.Keys == valeur.champs.Keys
    ensures valeur.JObj? ==> (r.None? <==> exists k | k in valeur.champs :: valeur.champs[k].JNull? || valeur.champs[k].JUndefined?)
  {
    if valeur.JArr? then Some(DepuisListe(valeur.elements, repliDate))
    else if !EstObjet(valeur) then Some(map[])
    else NormaliserPlat(Entrees(valeur), repliDate)
  }

  /** A value shaped like a guild record: an object with a field that is itself an object. */
  predicate EstGuildeImbriquee(v: JsValue)
  {
    EstObjet(v) && !EstParticipationPlate(v)
  }

  /** The guild records of a per-guild record, each read flat; None if any holds a null. */
  function NormaliserParGuilde(e: map<string, JsValue>, repliDate: string): (r: Option<map<string, ParticipantsGuilde>>)
    ensures r.Some? ==> forall g :: g in r.valeur <==> g in e && EstObjet(e[g])
  {
    if exists g | g in e && EstObjet(e[g]) :: NormaliserPlat(Entrees(e[g]), repliDate).None? then None
    else Some(map g | g in e && EstObjet(e[g]) :: NormaliserPlat(Entrees(e[g]), repliDate).valeur)
  }

  /**
   * The participants normaliser with per-guild records recognised: a record
   * is flat (legacy) unless one of its values is itself a guild record, in
   * which case each guild record is normalised on its own.  The result is in
   * the JSON form the manager restores from.
   */
  function NormaliserParticipants(valeur: JsValue, repliDate: string): (r: Option<JsValue>)
    ensures !EstObjet(valeur) ==> r == Some(JObj(map[]))
    ensures valeur.JArr? ==> r.Some?
    ensures r.Some? ==> r.valeur.JObj?
  {
    if valeur.JArr? then Some(GuildeVersJson(DepuisListe(valeur.elements, repliDate)))
    else if !EstObjet(valeur) then Some(JObj(map[]))
    else
      var e := Entrees(valeur);
      if forall k | k in e :: !EstGuildeImbriquee(e[k]) then
        var plat := NormaliserPlat(e, repliDate);
        if plat.None? then None else Some(GuildeVersJson(plat.valeur))
      else
        var parGuilde := NormaliserParGuilde(e, repliDate);
        if parGuilde.None? then None else Some(SerialisationDe(parGuilde.valeur))
  }

  /**
   * A flat record is refused exactly when one of its values is null or
   * missing, and otherwise keeps its user ids; a per-guild record keeps
   * exactly its guild records.
   */
  lemma NormaliserParticipantsCles(valeur: JsValue, repliDate: string)
    requires valeur.JObj?
    ensures var r := NormaliserParticipants(valeur, repliDate);
            (forall k | k in valeur.champs :: !EstGuildeImbriquee(valeur.champs[k])) ==>
              (r.None? <==> exists k | k in valeur.champs :: valeur.champs[k].JNull? || valeur.champs[k].JUndefined?)
              && (r.Some? ==> r.valeur.champs.Keys == valeur.champs.Keys)
    ensures var r := NormaliserParticipants(valeur, repliDate);
            !(forall k | k in valeur.champs :: !EstGuildeImbriquee(valeur.champs[k])) && r.Some? ==>
              forall g :: g in r.valeur.champs <==> g in valeur.champs && EstObjet(valeur.champs[g])
  {
  }

  // ---------------------------------------------------------------------------
  // questions and days

  /** A stored question: four string fields required; the tier is forced, only string choices kept. */
  function NormaliserQuestionTrivia(v: JsValue, niveau: Niveau): (r: Option<QuestionTrivia>)
    ensures r.Some? <==> EstObjet(v) && Champ(v, "id").JStr? && Champ(v, "question").JStr?
                         && Champ(v, "reponse").JStr? && Champ(v, "categorie").JStr?
    ensures r.Some? ==> r.valeur.difficulte == niveau && r.valeur.id == Champ(v, "id").s
                        && r.valeur.question == Champ(v, "question").s && r.valeur.reponse == Champ(v, "reponse").s
                        && r.valeur.categorie == Champ(v, "categorie").s
    ensures r.Some? ==> r.valeur.propositions == (if Champ(v, "propositions").JArr? then Chaines(Champ(v, "propositions").elements) else [])
  {
    if !EstObjet(v) then None
    else
      var id, q, rep, cat := Champ(v, "id"), Champ(v, "question"), Champ(v, "reponse"), Champ(v, "categorie");
      if !id.JStr? || !q.JStr? || !rep.JStr? || !cat.JStr? then None
      else
        var props := Champ(v, "propositions");
        Some(QuestionTrivia(id.s, q.s, if props.JArr? then Chaines(props.elements) else [], rep.s, cat.s, niveau))
  }

  /** The string elements of a list, in order. */
  function Chaines(l: seq<JsValue>): (r: seq<string>)
    ensures |r| <= |l|
    ensures forall x :: x in r <==> JStr(x) in l
  {
    if |l| == 0 then []
    else
      var debut := Chaines(l[..|l| - 1]);
      assert l == l[..|l| - 1] + [l[|l| - 1]];
      if l[|l| - 1].JStr? then debut + [l[|l| - 1].s] else debut
  }

  datatype IssueNiveau = NiveauInvalide | NiveauLeve | NiveauValide(etat: EtatSnapshot)

  /** One tier of a stored day: invalid without a valid question, throwing on a null participation. */
  function NormaliserNiveau(niveauxBruts: JsValue, n: Niveau, genereLe: string): (r: IssueNiveau)
    ensures r.NiveauValide? ==> r.etat.question.difficulte == n && r.etat.participants.JObj?
  {
    var brutNiveau := Champ(niveauxBruts, NiveauTexte(n));
    var question := NormaliserQuestionTrivia(Champ(brutNiveau, "question"), n);
    if question.None? then NiveauInvalide
    else
      var participants := NormaliserParticipants(Champ(brutNiveau, "participants"), genereLe);
      if participants.None? then NiveauLeve else NiveauValide(EtatSnapshot(question.valeur, participants.valeur))
  }

  /**
   * A tier is invalid exactly when its question is unusable, throws exactly
   * when the question is usable but a participation is null, and is kept
   * otherwise.
   */
  lemma NormaliserNiveauIssues(niveauxBruts: JsValue, n: Niveau, genereLe: string)
    ensures var brut := Champ(niveauxBruts, NiveauTexte(n));
            var r := NormaliserNiveau(niveauxBruts, n, genereLe);
            (r.NiveauInvalide? <==> NormaliserQuestionTrivia(Champ(brut, "question"), n).None?)
            && (r.NiveauLeve? <==> NormaliserQuestionTrivia(Champ(brut, "question"), n).Some?
                                   && NormaliserParticipants(Champ(brut, "participants"), genereLe).None?)
  {
  }

  datatype IssueJour = JourIgnore | JourLeve | JourGarde(entree: EntreeSnapshot)

  /** One stored day, its tiers examined in the order facile, moyen, difficile. */
  function NormaliserJour(entree: JsValue, maintenant: string): (r: IssueJour)
    ensures r.JourGarde? ==> EstObjet(entree) && EstObjet(Champ(entree, "niveau"))
    ensures r.JourGarde? ==> var niveaux := Champ(entree, "niveau");
                             NormaliserNiveau(niveaux, Facile, r.entree.genereLe) == NiveauValide(r.entree.facile)
                             && NormaliserNiveau(niveaux, Moyen, r.entree.genereLe) == NiveauValide(r.entree.moyen)
                             && NormaliserNiveau(niveaux, Difficile, r.entree.genereLe) == NiveauValide(r.entree.difficile)
    ensures r.JourLeve? ==> exists n: Niveau :: NormaliserNiveau(Champ(entree, "niveau"), n, ChaineOu(Champ(entree, "genereLe"), maintenant)).NiveauLeve?
    ensures r.JourGarde? ==> r.entree.genereLe == ChaineOu(Champ(entree, "genereLe"), maintenant)
  {
    if !EstObjet(entree) then JourIgnore
    else
      var genereLe := ChaineOu(Champ(entree, "genereLe"), maintenant);
      var niveauxBruts := Champ(entree, "niveau");
      if !EstObjet(niveauxBruts) then JourIgnore
      else
        var f := NormaliserNiveau(niveauxBruts, Facile, genereLe);
        if f.NiveauInvalide? then JourIgnore else if f.NiveauLeve? then JourLeve
        else
          var m := NormaliserNiveau(niveauxBruts, Moyen, genereLe);
          if m.NiveauInvalide? then JourIgnore else if m.NiveauLeve? then JourLeve
          else
            var d := NormaliserNiveau(niveauxBruts, Difficile, genereLe);
            if d.NiveauInvalide? then JourIgnore else if d.NiveauLeve? then JourLeve
            else
              JourGarde(EntreeSnapshot(genereLe, f.etat, m.etat, d.etat))
  }

  /** What happens to each stored day. */
  function Issues(e: map<string, JsValue>, maintenant: string): (r: map<string, IssueJour>)
    ensures r.Keys == e.Keys
    ensures forall date | date in e :: r[date] == NormaliserJour(e[date], maintenant)
  {
    map date | date in e :: NormaliserJour(e[date], maintenant)
  }

  /** The kept days among the dates `cles`. */
  function JoursGardes(issues: map<string, IssueJour>, cles: set<string>): QuestionsSnapshot
  {
    map date | date in cles && date in issues && issues[date].JourGarde? :: issues[date].entree
  }

  /** The stored snapshot, or None when reading it throws (the caller then starts from an empty one). */
  function Normalisation(value: JsValue, maintenant: string): (r: Option<QuestionsSnapshot>)
    ensures r.None? <==> EstObjet(value) && exists date | date in Entrees(value) :: NormaliserJour(Entrees(value)[date], maintenant).JourLeve?
    ensures r.Some? ==> forall date :: date in r.valeur <==> date in Entrees(value) && NormaliserJour(Entrees(value)[date], maintenant).JourGarde?
    ensures r.Some? ==> forall date | date in r.valeur :: r.valeur[date] == NormaliserJour(Entrees(value)[date], maintenant).entree
  {
    if !EstObjet(value) then Some(map[])
    else
      var issues := Issues(Entrees(value), maintenant);
      if exists date | date in issues :: issues[date].JourLeve? then None
      else Some(JoursGardes(issues, issues.Keys))
  }

  /** `normaliserQuestions`: the loop over the stored days. */
  method NormaliserQuestions(value: JsValue, maintenant: string) returns (r: Option<QuestionsSnapshot>)
    ensures r == Normalisation(value, maintenant)
  {
    if !EstObjet(value) {
      return Some(map[]);
    }
    var e := Entrees(value);
    ghost var issues := Issues(e, maintenant);
    var resultat: QuestionsSnapshot := map[];
    var restants := e.Keys;
    while restants != {}
      invariant restants <= e.Keys
      invariant forall date | date in e.Keys - restants :: !issues[date].JourLeve?
      invariant resultat == JoursGardes(issues, e.Keys - restants)
      decreases |restants|
    {
      var date :| date in restants;
      var issue := NormaliserJour(e[date], maintenant);
      assert issue == issues[date];
      if issue.JourLeve? {
        return None;
      }
      JoursGardesAjout(issues, e.Keys - restants, date);
      if issue.JourGarde? {
        resultat := resultat[date := issue.entree];
      }
      assert e.Keys - (restants - {date}) == (e.Keys - restants) + {date};
      restants := restants - {date};
    }
    assert e.Keys - restants == e.Keys;
    r := Some(resultat);
  }

  lemma JoursGardesAjout(issues: map<string, IssueJour>, cles: set<string>, date: string)
    requires date in issues
    ensures JoursGardes(issues, cles + {date})
              == if issues[date].JourGarde? then JoursGardes(issues, cles)[date := issues[date].entree] else JoursGardes(issues, cles)
  {
  }

  /** `cloneQuestions`: a copy equal to its input. */
  method CloneQuestions(snapshot: QuestionsSnapshot) returns (copie: QuestionsSnapshot)
    ensures copie == snapshot
  {
    copie := map[];
    var restants := snapshot.Keys;
    while restants != {}
      invariant restants <= snapshot.Keys
      invariant copie == map d | d in snapshot.Keys - restants :: snapshot[d]
      decreases |restants|
    {
      var date :| date in restants;
      var entree := snapshot[date];
      copie := copie[date := EntreeSnapshot(entree.genereLe,
                                            EtatSnapshot(entree.facile.question, entree.facile.participants),
                                            EtatSnapshot(entree.moyen.question, entree.moyen.participants),
                                            EtatSnapshot(entree.difficile.question, entree.difficile.participants))];
      restants := restants - {date};
    }
    assert snapshot.Keys - restants == snapshot.Keys;
  }

  // ---------------------------------------------------------------------------
  // properties

  /** In object form, a missing status reads as incorrect and a missing date as the fallback. */
  lemma ParticipationStockeeDefauts(v: JsValue, repliDate: string)
    requires EstObjet(v) && Champ(v, "statut").JUndefined? && Champ(v, "reponse").JNum? && Champ(v, "reponduLe").JUndefined?
    ensures ParticipationStockee(v, repliDate) == Some(Participation(None, Incorrect, repliDate))
  {
  }

  /**
   * As written, the per-guild record of a user who answered correctly in guild
   * "g" is read back as one participation of a user named "g".
   */
  lemma NormaliserParticipantsAplatit(repliDate: string)
    ensures var p := Participation(Some("Réponse"), Correct, "2024-02-10T09:00:00.000Z");
            var c := map["g" := map["u" := p]];
            NormaliserParticipantsTelQuEcrit(SerialisationDe(c), repliDate)
              == Some(map["g" := Participation(None, Incorrect, repliDate)])
  {
    var p := Participation(Some("Réponse"), Correct, "2024-02-10T09:00:00.000Z");
    var c := map["g" := map["u" := p]];
    var gv := GuildeVersJson(c["g"]);
    var e := Entrees(SerialisationDe(c));
    assert e.Keys == {"g"};
    assert e["g"] == gv;
    assert Entrees(gv).Keys == {"u"};
    assert Champ(gv, "statut") == JUndefined;
    assert Champ(gv, "reponse") == JUndefined;
    assert Champ(gv, "reponduLe") == JUndefined;
    var attendu := Participation(None, Incorrect, repliDate);
    assert ParticipationStockee(gv, repliDate) == Some(attendu);
    assert !exists k | k in e :: e[k].JNull? || e[k].JUndefined?;
    var r := NormaliserPlat(e, repliDate);
    assert r.valeur == map k | k in e :: ParticipationStockee(e[k], repliDate).valeur;
    assert r.valeur.Keys == {"g"} && r.valeur["g"] == attendu;
    assert r.valeur == map["g" := attendu];
  }

  lemma ParticipationStockeeVersJson(p: Participation, repliDate: string)
    ensures ParticipationStockee(ParticipationVersJson(p), repliDate) == Some(p)
  {
    var v := ParticipationVersJson(p);
    assert Champ(v, "statut") == JStr(StatutTexte(p.statut));
    assert Champ(v, "reponse") == if p.reponse.Some? then JStr(p.reponse.valeur) else JNull;
    assert Champ(v, "reponduLe") == JStr(p.reponduLe);
  }

  lemma PlatGuildeVersJson(m: ParticipantsGuilde, repliDate: string)
    ensures NormaliserPlat(Entrees(GuildeVersJson(m)), repliDate) == Some(m)
  {
    var e := Entrees(GuildeVersJson(m));
    assert e == map u | u in m :: ParticipationVersJson(m[u]);
    forall u | u in m ensures ParticipationStockee(e[u], repliDate) == Some(m[u]) {
      ParticipationStockeeVersJson(m[u], repliDate);
    }
    assert forall k | k in e :: e[k].JObj?;
    assert (map k | k in e :: ParticipationStockee(e[k], repliDate).valeur) == m;
  }

  /** A flat legacy record passes through the corrected normaliser unchanged. */
  lemma NormaliserLegacyPlat(m: ParticipantsGuilde, repliDate: string)
    ensures NormaliserParticipants(GuildeVersJson(m), repliDate) == Some(GuildeVersJson(m))
  {
    var e := Entrees(GuildeVersJson(m));
    forall u | u in e ensures !EstGuildeImbriquee(e[u]) {
      ParticipationPlate(m[u]);
    }
    PlatGuildeVersJson(m, repliDate);
  }

  /** On arrays, non-objects and flat records the corrected normaliser reads exactly what the original reads. */
  lemma CorrigeEtendTelQuEcrit(v: JsValue, repliDate: string)
    requires v.JArr? || !EstObjet(v) || forall k | k in Entrees(v) :: !EstGuildeImbriquee(Entrees(v)[k])
    ensures var t := NormaliserParticipantsTelQuEcrit(v, repliDate);
            var c := NormaliserParticipants(v, repliDate);
            (t.None? <==> c.None?) && (t.Some? ==> c.valeur == GuildeVersJson(t.valeur))
  {
    if !EstObjet(v) {
      assert GuildeVersJson(map[]) == JObj(map[]);
    }
  }

  lemma ParGuildeDeSerialisation(c: Participants, repliDate: string)
    ensures NormaliserParGuilde(Entrees(SerialisationDe(c)), repliDate) == Some(c)
  {
    var e := Entrees(SerialisationDe(c));
    assert e == map g | g in c :: GuildeVersJson(c[g]);
    forall h | h in e ensures NormaliserPlat(Entrees(e[h]), repliDate) == Some(c[h]) {
      PlatGuildeVersJson(c[h], repliDate);
    }
    assert forall h | h in e :: EstObjet(e[h]);
    assert !exists h | h in e && EstObjet(e[h]) :: NormaliserPlat(Entrees(e[h]), repliDate).None?;
    assert (map h | h in e && EstObjet(e[h]) :: NormaliserPlat(Entrees(e[h]), repliDate).valeur) == c;
  }

  /** The per-guild record the manager writes passes through the corrected normaliser unchanged. */
  lemma NormaliserSerialisation(c: Participants, repliDate: string)
    requires ParticipantsNonVides(c)
    ensures NormaliserParticipants(SerialisationDe(c), repliDate) == Some(SerialisationDe(c))
  {
    var e := Entrees(SerialisationDe(c));
    if c == map[] {
      assert e == map[];
      assert NormaliserPlat(e, repliDate) == Some(map[]);
      assert GuildeVersJson(map[]) == SerialisationDe(c);
    } else {
      var g :| g in c;
      GuildeNonPlate(c[g]);
      assert e[g] == GuildeVersJson(c[g]);
      assert EstGuildeImbriquee(e[g]);
      assert !forall k | k in e :: !EstGuildeImbriquee(e[k]);
      ParGuildeDeSerialisation(c, repliDate);
    }
  }

  /**
   * Participation written by the manager, read back by the storage layer and
   * restored by the manager, is exactly what was written.
   */
  lemma EcrireLireRestaurer(c: Participants, repliDate: string, maintenant: string)
    requires ParticipantsNonVides(c)
    ensures var lu := NormaliserParticipants(SerialisationDe(c), repliDate);
            lu.Some? && RestaurerParticipants(lu.valeur, maintenant) == c
  {
    NormaliserSerialisation(c, repliDate);
    RestaurerSerialisation(c, maintenant);
  }
}
