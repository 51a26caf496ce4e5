/**
 * The daily question sets: one set of three questions (one per tier) per day
 * key, fetched once from the provider, with per-guild, per-user participation
 * records that act as the replay guard, and their snapshot form.
 */
module ServiceQuestionsDuJour {
  import opened Commun
  import opened Json

  /** User id to participation, within one guild. */
  type ParticipantsGuilde = map<string, Participation>

  /** Guild id (or the legacy key) to that guild's participants. */
  type Participants = map<string, ParticipantsGuilde>

  datatype EtatQuestion = EtatQuestion(question: QuestionTrivia, participants: Participants)

  /** The set of one day. */
  datatype QuestionsDuJour = QuestionsDuJour(
    cle: string,
    facile: EtatQuestion,
    moyen: EtatQuestion,
    difficile: EtatQuestion,
    genereLe: string)
  {
    function Etat(n: Niveau): EtatQuestion
    {
      match n
      case Facile => facile
      case Moyen => moyen
      case Difficile => difficile
    }

    function AvecEtat(n: Niveau, e: EtatQuestion): (r: QuestionsDuJour)
      ensures r.Etat(n) == e
      ensures forall m: Niveau :: m != n ==> r.Etat(m) == Etat(m)
      ensures r.cle == cle && r.genereLe == genereLe
    {
      match n
      case Facile => this.(facile := e)
      case Moyen => this.(moyen := e)
      case Difficile => this.(difficile := e)
    }
  }

  /** One day of the snapshot: participants are in their JSON form. */
  datatype EtatSnapshot = EtatSnapshot(question: QuestionTrivia, participants: JsValue)

  datatype EntreeSnapshot = EntreeSnapshot(genereLe: string, facile: EtatSnapshot, moyen: EtatSnapshot, difficile: EtatSnapshot)

  type QuestionsSnapshot = map<string, EntreeSnapshot>

  // ---------------------------------------------------------------------------
  // participants of one tier

  /** The guild's own participants, else the legacy ones, else none. */
  function TrouverParticipantsPourGuilde(c: Participants, guildId: string): (r: Option<ParticipantsGuilde>)
    ensures r.Some? <==> guildId in c || CleGuildeLegacy in c
    ensures guildId in c ==> r == Some(c[guildId])
    ensures guildId !in c && r.Some? ==> r == Some(c[CleGuildeLegacy])
  {
    if guildId in c then Some(c[guildId])
    else if CleGuildeLegacy in c then Some(c[CleGuildeLegacy])
    else None
  }

  predicate DejaReponduDans(c: Participants, guildId: string, utilisateurId: string)
  {
    var p := TrouverParticipantsPourGuilde(c, guildId);
    p.Some? && utilisateurId in p.valeur
  }

  /**
   * Makes sure the guild has its own participants: an absent guild takes over
   * the legacy map (which is removed) or starts empty.  What the guild sees is
   * unchanged, and no other guild's map moves.
   */
  function ObtenirOuCreerParticipantsPourGuilde(c: Participants, guildId: string): (r: Participants)
    ensures guildId in r
    ensures r[guildId] == TrouverParticipantsPourGuilde(c, guildId).GetOr(map[])
    ensures forall g :: g != guildId && g != CleGuildeLegacy ==> (g in r <==> g in c) && (g in c ==> r[g] == c[g])
    ensures guildId !in c && guildId != CleGuildeLegacy ==> CleGuildeLegacy !in r
    ensures guildId in c ==> r == c
  {
    if guildId in c then c
    else if CleGuildeLegacy in c then (c - {CleGuildeLegacy})[guildId := c[CleGuildeLegacy]]
    else c[guildId := map[]]
  }

  /** Records (or overwrites) one user's participation for one guild. */
  function EnregistrerDans(c: Participants, guildId: string, utilisateurId: string, p: Participation): (r: Participants)
    ensures guildId in r && utilisateurId in r[guildId] && r[guildId][utilisateurId] == p
  {
    var m := ObtenirOuCreerParticipantsPourGuilde(c, guildId);
    m[guildId := m[guildId][utilisateurId := p]]
  }

  // ---------------------------------------------------------------------------
  // generation of a day's set

  function MessageAucuneQuestion(n: Niveau): string
  {
    "Aucune question disponible pour la difficulté " + NiveauTexte(n)
  }

  /**
   * The set built from the provider's answers (the first question of each
   * tier), or the error of the first tier for which it had none.
   */
  function Generer(cle: string, recuperer: Niveau -> seq<QuestionTrivia>, genereLe: string): (r: Resultat<QuestionsDuJour>)
    ensures r.Ok? <==> forall n: Niveau :: |recuperer(n)| > 0
    ensures r.Ok? ==> r.valeur.cle == cle && r.valeur.genereLe == genereLe
                      && forall n: Niveau :: r.valeur.Etat(n) == EtatQuestion(recuperer(n)[0], map[])
    ensures r.Erreur? ==> exists n: Niveau :: |recuperer(n)| == 0 && r.message == MessageAucuneQuestion(n)
  {
    if |recuperer(Facile)| == 0 then Erreur(MessageAucuneQuestion(Facile))
    else if |recuperer(Moyen)| == 0 then Erreur(MessageAucuneQuestion(Moyen))
    else if |recuperer(Difficile)| == 0 then Erreur(MessageAucuneQuestion(Difficile))
    else
      TousNiveauxFournis(recuperer);
      Ok(QuestionsDuJour(cle,
                         EtatQuestion(recuperer(Facile)[0], map[]),
                         EtatQuestion(recuperer(Moyen)[0], map[]),
                         EtatQuestion(recuperer(Difficile)[0], map[]),
                         genereLe))
  }

  lemma TousNiveauxFournis(recuperer: Niveau -> seq<QuestionTrivia>)
    requires |recuperer(Facile)| > 0 && |recuperer(Moyen)| > 0 && |recuperer(Difficile)| > 0
    ensures forall n: Niveau :: |recuperer(n)| > 0
  {
    forall n: Niveau ensures |recuperer(n)| > 0 {
      match n
      case Facile =>
      case Moyen =>
      case Difficile =>
    }
  }

  // ---------------------------------------------------------------------------
  // snapshot form of the participants

  function ParticipationVersJson(p: Participation): JsValue
  {
    JObj(map["reponse" := (if p.reponse.Some? then JStr(p.reponse.valeur) else JNull),
             "statut" := JStr(StatutTexte(p.statut)),
             "reponduLe" := JStr(p.reponduLe)])
  }

  function GuildeVersJson(m: ParticipantsGuilde): JsValue
  {
    JObj(map u | u in m :: ParticipationVersJson(m[u]))
  }

  /** The record `serialiserParticipants` builds: guild to user to participation. */
  function SerialisationDe(c: Participants): (v: JsValue)
    ensures v.JObj? && v.champs.Keys == c.Keys
  {
    JObj(map g | g in c :: GuildeVersJson(c[g]))
  }

  /** What `typeof v === 'object' && v !== null` accepts: a plain object or an array. */
  predicate EstParticipationBrute(v: JsValue)
    ensures EstParticipationBrute(v) <==> v.JObj? || v.JArr?
  {
    EstObjet(v)
  }

  /**
   * A raw participation: `statut` outside the three known values reads as
   * incorrect, a non-string `reponse` as none, a missing `reponduLe` as now.
   */
  function NormaliserParticipation(v: JsValue, maintenant: string): (r: Option<Participation>)
    ensures r.Some? <==> EstParticipationBrute(v)
    ensures r.Some? ==> (r.valeur.reponse.Some? <==> Champ(v, "reponse").JStr?)
    ensures r.Some? && Champ(v, "reponse").JStr? ==> r.valeur.reponse == Some(Champ(v, "reponse").s)
    ensures r.Some? && !(Champ(v, "statut").JStr? && StatutDepuisTexte(Champ(v, "statut").s).Some?) ==> r.valeur.statut == Incorrect
    ensures r.Some? && Champ(v, "statut").JStr? && StatutDepuisTexte(Champ(v, "statut").s).Some? ==>
              StatutTexte(r.valeur.statut) == Champ(v, "statut").s
    ensures r.Some? ==> r.valeur.reponduLe == (if Champ(v, "reponduLe").JStr? then Champ(v, "reponduLe").s else maintenant)
  {
    if !EstParticipationBrute(v) then None
    else
      var s := Champ(v, "statut");
      var statut := if s.JStr? && StatutDepuisTexte(s.s).Some? then StatutDepuisTexte(s.s).valeur else Incorrect;
      Some(Participation(OptionChaine(Champ(v, "reponse")), statut, ChaineOu(Champ(v, "reponduLe"), maintenant)))
  }

  /** The participations, among the fields `cles` of a raw record, that normalise. */
  function GuildeDepuisChamps(e: map<string, JsValue>, cles: set<string>, maintenant: string): ParticipantsGuilde
  {
    map u | u in cles && u in e && NormaliserParticipation(e[u], maintenant).Some? :: NormaliserParticipation(e[u], maintenant).valeur
  }

  /** The participations of one raw guild record that normalise. */
  function GuildeDepuisJson(v: JsValue, maintenant: string): ParticipantsGuilde
  {
    GuildeDepuisChamps(Entrees(v), Entrees(v).Keys, maintenant)
  }

  /** The guild records, among the fields `cles`, of a per-guild raw record (non-objects and empty guilds dropped). */
  function ParGuildeSur(e: map<string, JsValue>, cles: set<string>, maintenant: string): Participants
  {
    map g | g in cles && g in e && EstObjet(e[g]) && GuildeDepuisJson(e[g], maintenant) != map[] :: GuildeDepuisJson(e[g], maintenant)
  }

  function ParGuilde(e: map<string, JsValue>, maintenant: string): Participants
  {
    ParGuildeSur(e, e.Keys, maintenant)
  }

  lemma GuildeDepuisChampsAjout(e: map<string, JsValue>, cles: set<string>, u: string, maintenant: string)
    requires u in e
    ensures GuildeDepuisChamps(e, cles + {u}, maintenant) ==
              var n := NormaliserParticipation(e[u], maintenant);
              if n.Some? then GuildeDepuisChamps(e, cles, maintenant)[u := n.valeur] else GuildeDepuisChamps(e, cles, maintenant)
  {
  }

  lemma ParGuildeSurAjout(e: map<string, JsValue>, cles: set<string>, g: string, maintenant: string)
    requires g in e
    ensures ParGuildeSur(e, cles + {g}, maintenant) ==
              if EstObjet(e[g]) && GuildeDepuisJson(e[g], maintenant) != map[]
              then ParGuildeSur(e, cles, maintenant)[g := GuildeDepuisJson(e[g], maintenant)]
              else ParGuildeSur(e, cles, maintenant)
  {
  }

  /** The whole raw record read as flat legacy data. */
  function CommeLegacy(valeur: JsValue, maintenant: string): Participants
  {
    var p := GuildeDepuisJson(valeur, maintenant);
    if p != map[] then map[CleGuildeLegacy := p] else map[]
  }

  /**
   * `restaurerParticipants` as written: the record is read as flat legacy data
   * when every value is an object, which also holds for every per-guild record.
   */
  function RestaurerParticipantsTelQuEcrit(valeur: JsValue, maintenant: string): (r: Participants)
    ensures !EstObjet(valeur) ==> r == map[]
    ensures EstObjet(valeur) && (forall k | k in Entrees(valeur) :: EstObjet(Entrees(valeur)[k])) ==>
              r.Keys <= {CleGuildeLegacy}
    ensures forall g | g in r :: r[g] != map[]
  {
    if !EstObjet(valeur) then map[]
    else
      var e := Entrees(valeur);
      if forall k | k in e :: EstParticipationBrute(e[k]) then CommeLegacy(valeur, maintenant)
      else ParGuilde(e, maintenant)
  }

  /** An object none of whose fields is itself an object: the shape of one participation. */
  predicate EstParticipationPlate(v: JsValue)
  {
    EstObjet(v) && forall f | f in Entrees(v) :: !EstObjet(Entrees(v)[f])
  }

  /**
   * The restore with the legacy test the code evidently intends: flat legacy
   * data is a record of participations, that is of flat objects.
   */
  function RestaurerParticipants(valeur: JsValue, maintenant: string): (r: Participants)
    ensures !EstObjet(valeur) ==> r == map[]
  {
    if !EstObjet(valeur) then map[]
    else
      var e := Entrees(valeur);
      if forall k | k in e :: EstParticipationPlate(e[k]) then CommeLegacy(valeur, maintenant)
      else ParGuilde(e, maintenant)
  }

  /** The loop over one raw guild record. */
  method RestaurerGuilde(v: JsValue, maintenant: string) returns (m: ParticipantsGuilde)
    ensures m == GuildeDepuisJson(v, maintenant)
  {
    var e := Entrees(v);
    m := map[];
    var restants := e.Keys;
    while restants != {}
      invariant restants <= e.Keys
      invariant m == GuildeDepuisChamps(e, e.Keys - restants, maintenant)
      decreases |restants|
    {
      var u :| u in restants;
      GuildeDepuisChampsAjout(e, e.Keys - restants, u, maintenant);
      var normalise := NormaliserParticipation(e[u], maintenant);
      if normalise.Some? {
        m := m[u := normalise.valeur];
      }
      assert e.Keys - (restants - {u}) == (e.Keys - restants) + {u};
      restants := restants - {u};
    }
    assert e.Keys - restants == e.Keys;
  }

  /** The loop over the guild records of a per-guild raw record. */
  method RestaurerGuildes(e: map<string, JsValue>, maintenant: string) returns (resultat: Participants)
    ensures resultat == ParGuilde(e, maintenant)
  {
    resultat := map[];
    var restants := e.Keys;
    ghost var vus: set<string> := {};
    while restants != {}
      invariant restants <= e.Keys && vus == e.Keys - restants
      invariant resultat == ParGuildeSur(e, vus, maintenant)
      decreases |restants|
    {
      var g :| g in restants;
      ParGuildeSurAjout(e, vus, g, maintenant);
      if EstObjet(e[g]) {
        var mapParticipants := RestaurerGuilde(e[g], maintenant);
        if mapParticipants != map[] {
          resultat := resultat[g := mapParticipants];
        }
      }
      restants := restants - {g};
      vus := vus + {g};
    }
  }

  /** `restaurerParticipants` with the corrected legacy test, as the loops build it. */
  method RestaurerParticipantsBoucle(valeur: JsValue, maintenant: string) returns (resultat: Participants)
    ensures resultat == RestaurerParticipants(valeur, maintenant)
  {
    resultat := map[];
    if !EstObjet(valeur) {
      return;
    }
    var e := Entrees(valeur);
    var estLegacy := forall k | k in e :: EstParticipationPlate(e[k]);
    if estLegacy {
      var participants := RestaurerGuilde(valeur, maintenant);
      if participants != map[] {
        resultat := map[CleGuildeLegacy := participants];
      }
    } else {
      resultat := RestaurerGuildes(e, maintenant);
    }
  }

  /** `serialiserParticipants`: one record per guild, one entry per user. */
  method SerialiserParticipants(c: Participants) returns (r: JsValue)
    ensures r == SerialisationDe(c)
  {
    var resultat: map<string, JsValue> := map[];
    var restants := c.Keys;
    while restants != {}
      invariant restants <= c.Keys
      invariant resultat == map g | g in c.Keys - restants :: GuildeVersJson(c[g])
      decreases |restants|
    {
      var g :| g in restants;
      var participationGuilde := c[g];
      var enregistrements: map<string, JsValue> := map[];
      var utilisateurs := participationGuilde.Keys;
      while utilisateurs != {}
        invariant utilisateurs <= participationGuilde.Keys
        invariant enregistrements == map u | u in participationGuilde.Keys - utilisateurs :: ParticipationVersJson(participationGuilde[u])
        decreases |utilisateurs|
      {
        var u :| u in utilisateurs;
        enregistrements := enregistrements[u := ParticipationVersJson(participationGuilde[u])];
        utilisateurs := utilisateurs - {u};
      }
      assert participationGuilde.Keys - utilisateurs == participationGuilde.Keys;
      assert JObj(enregistrements) == GuildeVersJson(c[g]);
      resultat := resultat[g := JObj(enregistrements)];
      restants := restants - {g};
    }
    assert c.Keys - restants == c.Keys;
    r := JObj(resultat);
  }

  // ---------------------------------------------------------------------------
  // the manager

  /** Every guild map is non-empty: no operation ever keeps an empty one. */
  predicate ParticipantsNonVides(c: Participants)
  {
    forall g | g in c :: c[g] != map[]
  }

  ghost predicate JeuBienForme(cle: string, j: QuestionsDuJour)
  {
    j.cle == cle && forall n: Niveau :: ParticipantsNonVides(j.Etat(n).participants)
  }

  function EtatDepuisSnapshot(e: EtatSnapshot, maintenant: string): EtatQuestion
  {
    EtatQuestion(e.question, RestaurerParticipants(e.participants, maintenant))
  }

  function JeuDepuisSnapshot(cle: string, e: EntreeSnapshot, maintenant: string): QuestionsDuJour
  {
    QuestionsDuJour(cle, EtatDepuisSnapshot(e.facile, maintenant), EtatDepuisSnapshot(e.moyen, maintenant),
                    EtatDepuisSnapshot(e.difficile, maintenant), e.genereLe)
  }

  function EtatVersSnapshot(e: EtatQuestion): EtatSnapshot
  {
    EtatSnapshot(e.question, SerialisationDe(e.participants))
  }

  function JeuVersSnapshot(j: QuestionsDuJour): EntreeSnapshot
  {
    EntreeSnapshot(j.genereLe, EtatVersSnapshot(j.facile), EtatVersSnapshot(j.moyen), EtatVersSnapshot(j.difficile))
  }

  class GestionnaireQuestionsDuJour {
    /** Day key to that day's set. */
    var cache: map<string, QuestionsDuJour>

    /** Number of provider requests made so far. */
    ghost var appelsFournisseur: nat

    ghost predicate Valid()
      reads this
    {
      forall cle | cle in cache :: JeuBienForme(cle, cache[cle])
    }

    /** An empty manager, or one loaded from a snapshot (`maintenant` dates participations without one). */
    constructor(initial: Option<QuestionsSnapshot>, maintenant: string)
      ensures Valid() && appelsFournisseur == 0
      ensures initial.None? ==> cache == map[]
      ensures initial.Some? ==> cache == map cle | cle in initial.valeur :: JeuDepuisSnapshot(cle, initial.valeur[cle], maintenant)
    {
      appelsFournisseur := 0;
      var chargement: map<string, QuestionsDuJour> := map[];
      if initial.Some? {
        chargement := ChargerDepuisSnapshot(initial.valeur, maintenant);
      }
      cache := chargement;
    }

    /**
     * The day's set: the cached one without asking the provider, or a new one
     * fetched with one provider request per tier and cached only on success.
     */
    method ObtenirJeuPour(cle: string, recuperer: Niveau -> seq<QuestionTrivia>, genereLe: string) returns (r: Resultat<QuestionsDuJour>)
      requires Valid()
      modifies this
      ensures Valid()
      ensures cle in old(cache) ==> r == Ok(old(cache)[cle]) && cache == old(cache) && appelsFournisseur == old(appelsFournisseur)
      ensures cle !in old(cache) ==> r == Generer(cle, recuperer, genereLe) && appelsFournisseur == old(appelsFournisseur) + 3
      ensures cle !in old(cache) && r.Ok? ==> cache == old(cache)[cle := r.valeur]
      ensures r.Erreur? ==> cache == old(cache)
    {
      if cle in cache {
        return Ok(cache[cle]);
      }
      var reponses: seq<seq<QuestionTrivia>> := [];
      var i := 0;
      while i < |Niveaux|
        invariant 0 <= i <= |Niveaux|
        invariant |reponses| == i
        invariant forall k :: 0 <= k < i ==> reponses[k] == recuperer(Niveaux[k])
        invariant appelsFournisseur == old(appelsFournisseur) + i
        invariant cache == old(cache)
      {
        reponses := reponses + [recuperer(Niveaux[i])];
        appelsFournisseur := appelsFournisseur + 1;
        i := i + 1;
      }
      var obtenu := (n: Niveau) => reponses[RangNiveau(n)];
      assert forall n: Niveau :: obtenu(n) == recuperer(n);
      r := Generer(cle, obtenu, genereLe);
      assert r == Generer(cle, recuperer, genereLe);
      if r.Ok? {
        cache := cache[cle := r.valeur];
      }
    }

    /** Whether the user already answered that tier of that day, in that guild (or in legacy data). */
    predicate ADejaRepondu(cle: string, niveau: Niveau, utilisateurId: string, guildId: string)
      reads this
      ensures ADejaRepondu(cle, niveau, utilisateurId, guildId) ==> cle in cache
      ensures ADejaRepondu(cle, niveau, utilisateurId, guildId) ==>
                var c := cache[cle].Etat(niveau).participants;
                (guildId in c && utilisateurId in c[guildId]) || (guildId !in c && CleGuildeLegacy in c && utilisateurId in c[CleGuildeLegacy])
    {
      cle in cache && DejaReponduDans(cache[cle].Etat(niveau).participants, guildId, utilisateurId)
    }

    /** Records a participation; fails, changing nothing, when the day has no set. */
    method EnregistrerParticipation(cle: string, niveau: Niveau, utilisateurId: string, guildId: string, participation: Participation)
      returns (r: Resultat<()>)
      requires Valid()
      modifies this
      ensures Valid() && appelsFournisseur == old(appelsFournisseur)
      ensures cle !in old(cache) ==> r == Erreur("Questions du " + cle + " introuvables.") && cache == old(cache)
      ensures cle in old(cache) ==> r.Ok? && cache == old(cache)[cle := Participer(old(cache)[cle], niveau, guildId, utilisateurId, participation)]
      ensures cle in old(cache) ==> ADejaRepondu(cle, niveau, utilisateurId, guildId)
    {
      if cle !in cache {
        return Erreur("Questions du " + cle + " introuvables.");
      }
      var jeu := cache[cle];
      ParticiperBienForme(cle, jeu, niveau, guildId, utilisateurId, participation);
      EnregistrerPuisDejaRepondu(jeu.Etat(niveau).participants, guildId, utilisateurId, participation);
      cache := cache[cle := Participer(jeu, niveau, guildId, utilisateurId, participation)];
      r := Ok(());
    }

    /** Forgets the day's set, so the next request fetches a new one. */
    method ReinitialiserPour(cle: string)
      requires Valid()
      modifies this
      ensures Valid() && appelsFournisseur == old(appelsFournisseur)
      ensures cache == old(cache) - {cle}
    {
      cache := cache - {cle};
    }

    /** Every cached day in its snapshot form. */
    method ToSnapshot() returns (s: QuestionsSnapshot)
      ensures s == map cle | cle in cache :: JeuVersSnapshot(cache[cle])
    {
      s := map[];
      var restants := cache.Keys;
      while restants != {}
        invariant restants <= cache.Keys
        invariant s == map cle | cle in cache.Keys - restants :: JeuVersSnapshot(cache[cle])
        decreases |restants|
      {
        var cle :| cle in restants;
        var valeur := cache[cle];
        var f := SerialiserParticipants(valeur.facile.participants);
        var m := SerialiserParticipants(valeur.moyen.participants);
        var d := SerialiserParticipants(valeur.difficile.participants);
        s := s[cle := EntreeSnapshot(valeur.genereLe, EtatSnapshot(valeur.facile.question, f),
                                     EtatSnapshot(valeur.moyen.question, m), EtatSnapshot(valeur.difficile.question, d))];
        restants := restants - {cle};
      }
    }
  }

  /** The set after one participation write. */
  function Participer(j: QuestionsDuJour, n: Niveau, guildId: string, utilisateurId: string, p: Participation): QuestionsDuJour
  {
    j.AvecEtat(n, j.Etat(n).(participants := EnregistrerDans(j.Etat(n).participants, guildId, utilisateurId, p)))
  }

  /** `chargerDepuisSnapshot`: every day of the snapshot, participants restored. */
  method ChargerDepuisSnapshot(snapshot: QuestionsSnapshot, maintenant: string) returns (cache: map<string, QuestionsDuJour>)
    ensures cache == map cle | cle in snapshot :: JeuDepuisSnapshot(cle, snapshot[cle], maintenant)
    ensures forall cle | cle in cache :: JeuBienForme(cle, cache[cle])
  {
    cache := map[];
    var restants := snapshot.Keys;
    while restants != {}
      invariant restants <= snapshot.Keys
      invariant cache == map cle | cle in snapshot.Keys - restants :: JeuDepuisSnapshot(cle, snapshot[cle], maintenant)
      invariant forall cle | cle in cache :: JeuBienForme(cle, cache[cle])
      decreases |restants|
    {
      var cle :| cle in restants;
      var entree := snapshot[cle];
      var f := RestaurerParticipantsBoucle(entree.facile.participants, maintenant);
      var m := RestaurerParticipantsBoucle(entree.moyen.participants, maintenant);
      var d := RestaurerParticipantsBoucle(entree.difficile.participants, maintenant);
      var jeu := QuestionsDuJour(cle, EtatQuestion(entree.facile.question, f), EtatQuestion(entree.moyen.question, m),
                                 EtatQuestion(entree.difficile.question, d), entree.genereLe);
      RestaurerNonVide(entree.facile.participants, maintenant);
      RestaurerNonVide(entree.moyen.participants, maintenant);
      RestaurerNonVide(entree.difficile.participants, maintenant);
      cache := cache[cle := jeu];
      restants := restants - {cle};
    }
  }

  // ---------------------------------------------------------------------------
  // properties of the replay guard

  /** After a write, the same (guild, user) is seen as having answered. */
  lemma EnregistrerPuisDejaRepondu(c: Participants, guildId: string, utilisateurId: string, p: Participation)
    ensures DejaReponduDans(EnregistrerDans(c, guildId, utilisateurId, p), guildId, utilisateurId)
  {
  }

  /** A write touches only its own (guild, user) record. */
  lemma EnregistrerLocal(c: Participants, guildId: string, utilisateurId: string, p: Participation)
    ensures var r := EnregistrerDans(c, guildId, utilisateurId, p);
            (forall g :: g != guildId && g != CleGuildeLegacy ==> (g in r <==> g in c) && (g in c ==> r[g] == c[g])) &&
            (forall u :: u != utilisateurId ==>
               (u in r[guildId] <==> DejaReponduDans(c, guildId, u)) &&
               (u in r[guildId] ==> r[guildId][u] == TrouverParticipantsPourGuilde(c, guildId).valeur[u]))
  {
  }

  /** A second write for the same (guild, user) overwrites the first. */
  lemma EnregistrerEcrase(c: Participants, guildId: string, utilisateurId: string, p1: Participation, p2: Participation)
    ensures EnregistrerDans(EnregistrerDans(c, guildId, utilisateurId, p1), guildId, utilisateurId, p2)
            == EnregistrerDans(c, guildId, utilisateurId, p2)
  {
    var m := ObtenirOuCreerParticipantsPourGuilde(c, guildId);
    var r1 := EnregistrerDans(c, guildId, utilisateurId, p1);
    assert ObtenirOuCreerParticipantsPourGuilde(r1, guildId) == r1;
    assert r1[guildId][utilisateurId := p2] == m[guildId][utilisateurId := p2];
  }

  /** A guild without its own record answers from the legacy record. */
  lemma LegacyEnRepli(c: Participants, guildId: string, utilisateurId: string)
    requires guildId !in c && CleGuildeLegacy in c
    ensures DejaReponduDans(c, guildId, utilisateurId) <==> utilisateurId in c[CleGuildeLegacy]
  {
  }

  /** The first write of a guild moves the legacy record under that guild and removes the legacy key. */
  lemma PremiereEcritureMigreLegacy(c: Participants, guildId: string, utilisateurId: string, p: Participation)
    requires guildId !in c && CleGuildeLegacy in c && guildId != CleGuildeLegacy
    ensures var r := EnregistrerDans(c, guildId, utilisateurId, p);
            CleGuildeLegacy !in r && r[guildId] == c[CleGuildeLegacy][utilisateurId := p]
  {
  }

  lemma ParticiperBienForme(cle: string, j: QuestionsDuJour, n: Niveau, guildId: string, utilisateurId: string, p: Participation)
    requires JeuBienForme(cle, j)
    ensures JeuBienForme(cle, Participer(j, n, guildId, utilisateurId, p))
    ensures Participer(j, n, guildId, utilisateurId, p).Etat(n).participants == EnregistrerDans(j.Etat(n).participants, guildId, utilisateurId, p)
  {
    var c := j.Etat(n).participants;
    var r := EnregistrerDans(c, guildId, utilisateurId, p);
    assert ParticipantsNonVides(r) by {
      forall g | g in r ensures r[g] != map[] {
        if g == guildId {
          assert utilisateurId in r[g];
        } else if g == CleGuildeLegacy {
          assert g in c;
        }
      }
    }
  }

  lemma RestaurerNonVide(valeur: JsValue, maintenant: string)
    ensures ParticipantsNonVides(RestaurerParticipants(valeur, maintenant))
  {
  }

  // ---------------------------------------------------------------------------
  // snapshot round trip

  lemma NormaliserParticipationVersJson(p: Participation, maintenant: string)
    ensures NormaliserParticipation(ParticipationVersJson(p), maintenant) == Some(p)
  {
    var v := ParticipationVersJson(p);
    assert Champ(v, "statut") == JStr(StatutTexte(p.statut));
    assert Champ(v, "reponse") == if p.reponse.Some? then JStr(p.reponse.valeur) else JNull;
    assert Champ(v, "reponduLe") == JStr(p.reponduLe);
  }

  lemma GuildeAllerRetour(m: ParticipantsGuilde, maintenant: string)
    ensures GuildeDepuisJson(GuildeVersJson(m), maintenant) == m
  {
    forall u | u in m ensures NormaliserParticipation(ParticipationVersJson(m[u]), maintenant) == Some(m[u]) {
      NormaliserParticipationVersJson(m[u], maintenant);
    }
  }

  /** A non-empty guild record is not the shape of one participation. */
  lemma GuildeNonPlate(m: ParticipantsGuilde)
    requires m != map[]
    ensures !EstParticipationPlate(GuildeVersJson(m))
  {
    var u :| u in m;
    assert u in Entrees(GuildeVersJson(m));
  }

  /** A raw per-guild record whose every guild reads back as a non-empty record `c[g]` gives `c`. */
  lemma ParGuildeExact(e: map<string, JsValue>, c: Participants, maintenant: string)
    requires forall g | g in e :: g in c
    requires forall g | g in c :: g in e && c[g] != map[] && EstObjet(e[g]) && GuildeDepuisJson(e[g], maintenant) == c[g]
    ensures ParGuilde(e, maintenant) == c
  {
    var r := ParGuilde(e, maintenant);
    forall g ensures (g in r <==> g in c) && (g in r ==> r[g] == c[g]) {
      ParGuildeMembre(e, g, maintenant);
    }
  }

  lemma ParGuildeMembre(e: map<string, JsValue>, g: string, maintenant: string)
    ensures g in ParGuilde(e, maintenant) <==> g in e && EstObjet(e[g]) && GuildeDepuisJson(e[g], maintenant) != map[]
    ensures g in ParGuilde(e, maintenant) ==> ParGuilde(e, maintenant)[g] == GuildeDepuisJson(e[g], maintenant)
  {
  }

  /**
   * The corrected restore never keeps an empty guild; a record of flat
   * participations lands under the legacy key; any other record keeps exactly
   * its guild records that hold at least one participation.
   */
  lemma RestaurerParticipantsForme(valeur: JsValue, maintenant: string)
    ensures forall g | g in RestaurerParticipants(valeur, maintenant) :: RestaurerParticipants(valeur, maintenant)[g] != map[]
    ensures EstObjet(valeur) && (forall k | k in Entrees(valeur) :: EstParticipationPlate(Entrees(valeur)[k])) ==>
              RestaurerParticipants(valeur, maintenant).Keys <= {CleGuildeLegacy}
    ensures EstObjet(valeur) && !(forall k | k in Entrees(valeur) :: EstParticipationPlate(Entrees(valeur)[k])) ==>
              forall g :: g in RestaurerParticipants(valeur, maintenant) <==>
                            g in Entrees(valeur) && EstObjet(Entrees(valeur)[g]) && GuildeDepuisJson(Entrees(valeur)[g], maintenant) != map[]
  {
    var e := Entrees(valeur);
    if EstObjet(valeur) && !(forall k | k in e :: EstParticipationPlate(e[k])) {
      forall g ensures g in RestaurerParticipants(valeur, maintenant) <==> g in e && EstObjet(e[g]) && GuildeDepuisJson(e[g], maintenant) != map[] {
        ParGuildeMembre(e, g, maintenant);
      }
    }
  }

  lemma EntreesSerialisation(c: Participants)
    ensures Entrees(SerialisationDe(c)).Keys == c.Keys
    ensures forall g | g in c :: Entrees(SerialisationDe(c))[g] == GuildeVersJson(c[g])
  {
  }

  lemma ParGuildeSerialisation(c: Participants, maintenant: string)
    requires ParticipantsNonVides(c)
    ensures ParGuilde(Entrees(SerialisationDe(c)), maintenant) == c
  {
    var e := Entrees(SerialisationDe(c));
    EntreesSerialisation(c);
    forall h | h in c ensures h in e && c[h] != map[] && EstObjet(e[h]) && GuildeDepuisJson(e[h], maintenant) == c[h] {
      GuildeAllerRetour(c[h], maintenant);
    }
    ParGuildeExact(e, c, maintenant);
  }

  /** A record with one field that is not a flat participation is read per guild. */
  lemma RestaurerParGuilde(v: JsValue, k: string, maintenant: string)
    requires EstObjet(v) && k in Entrees(v) && !EstParticipationPlate(Entrees(v)[k])
    ensures RestaurerParticipants(v, maintenant) == ParGuilde(Entrees(v), maintenant)
  {
  }

  /** Participants written to the snapshot and restored come back unchanged. */
  lemma RestaurerSerialisation(c: Participants, maintenant: string)
    requires ParticipantsNonVides(c)
    ensures RestaurerParticipants(SerialisationDe(c), maintenant) == c
  {
    var v := SerialisationDe(c);
    EntreesSerialisation(c);
    if c == map[] {
      RestaurerVide(maintenant);
    } else {
      var g :| g in c;
      GuildeNonPlate(c[g]);
      RestaurerParGuilde(v, g, maintenant);
      ParGuildeSerialisation(c, maintenant);
    }
  }

  lemma RestaurerVide(maintenant: string)
    ensures RestaurerParticipants(SerialisationDe(map[]), maintenant) == map[]
  {
    var v := SerialisationDe(map[]);
    assert Entrees(v) == map[];
    assert GuildeDepuisJson(v, maintenant) == map[];
  }

  /** Loading a snapshot of a well-formed cache gives the cache back. */
  lemma ChargerSnapshot(cache: map<string, QuestionsDuJour>, maintenant: string)
    requires forall cle | cle in cache :: JeuBienForme(cle, cache[cle])
    ensures (map cle | cle in cache :: JeuDepuisSnapshot(cle, JeuVersSnapshot(cache[cle]), maintenant)) == cache
  {
    forall cle | cle in cache
      ensures JeuDepuisSnapshot(cle, JeuVersSnapshot(cache[cle]), maintenant) == cache[cle]
    {
      ChargerJeu(cle, cache[cle], maintenant);
    }
  }

  /** Loading the snapshot of one well-formed set gives the set back. */
  lemma ChargerJeu(cle: string, j: QuestionsDuJour, maintenant: string)
    requires JeuBienForme(cle, j)
    ensures JeuDepuisSnapshot(cle, JeuVersSnapshot(j), maintenant) == j
  {
    assert j.facile == j.Etat(Facile) && j.moyen == j.Etat(Moyen) && j.difficile == j.Etat(Difficile);
    RestaurerSerialisation(j.facile.participants, maintenant);
    RestaurerSerialisation(j.moyen.participants, maintenant);
    RestaurerSerialisation(j.difficile.participants, maintenant);
  }

  /** The snapshot of one guild with one participant has that guild as its only field. */
  lemma SerialisationUne(g: string, u: string, p: Participation)
    ensures Entrees(SerialisationDe(map[g := map[u := p]])) == map[g := GuildeVersJson(map[u := p])]
  {
  }

  /** A guild record keyed by a user id has none of the fields of a participation. */
  lemma GuildeSansChampsDeParticipation(u: string, p: Participation)
    requires u != "statut" && u != "reponse" && u != "reponduLe"
    ensures var v := GuildeVersJson(map[u := p]);
            && EstObjet(v) && Entrees(v).Keys == {u}
            && Champ(v, "statut") == JUndefined && Champ(v, "reponse") == JUndefined && Champ(v, "reponduLe") == JUndefined
  {
  }

  /**
   * As written, the restore reads a per-guild record as legacy data: a user
   * who answered in guild `g` is no longer seen as having answered there,
   * and the record left under the legacy key holds a bogus participation.
   */
  lemma RestaurerTelQuEcritPerdLaGarde(g: string, u: string, p: Participation, maintenant: string)
    requires g != CleGuildeLegacy && u != g
    requires u != "statut" && u != "reponse" && u != "reponduLe"
    ensures var c := map[g := map[u := p]];
            var r := RestaurerParticipantsTelQuEcrit(SerialisationDe(c), maintenant);
            DejaReponduDans(c, g, u) &&
            r == map[CleGuildeLegacy := map[g := Participation(None, Incorrect, maintenant)]] &&
            !DejaReponduDans(r, g, u)
  {
    var c := map[g := map[u := p]];
    var v := SerialisationDe(c);
    var gv := GuildeVersJson(c[g]);
    SerialisationUne(g, u, p);
    GuildeSansChampsDeParticipation(u, p);
    var lue := Participation(None, Incorrect, maintenant);
    assert NormaliserParticipation(gv, maintenant) == Some(lue);
    assert GuildeDepuisJson(v, maintenant) == map[g := lue];
    assert forall k | k in Entrees(v) :: EstParticipationBrute(Entrees(v)[k]);
    var r := RestaurerParticipantsTelQuEcrit(v, maintenant);
    assert r == CommeLegacy(v, maintenant);
    assert g in GuildeDepuisJson(v, maintenant);
    assert r == map[CleGuildeLegacy := map[g := lue]];
    assert TrouverParticipantsPourGuilde(r, g) == Some(map[g := lue]);
  }

  /** With the corrected test, flat legacy records still land under the legacy key. */
  lemma RestaurerLegacyPlat(participants: ParticipantsGuilde, maintenant: string)
    requires participants != map[]
    ensures RestaurerParticipants(GuildeVersJson(participants), maintenant) == map[CleGuildeLegacy := participants]
  {
    var e := Entrees(GuildeVersJson(participants));
    forall u | u in e ensures EstParticipationPlate(e[u]) {
      ParticipationPlate(participants[u]);
    }
    GuildeAllerRetour(participants, maintenant);
  }

  lemma ParticipationPlate(p: Participation)
    ensures EstParticipationPlate(ParticipationVersJson(p))
  {
    var v := ParticipationVersJson(p);
    forall f | f in Entrees(v) ensures !EstObjet(Entrees(v)[f]) {
      assert f == "reponse" || f == "statut" || f == "reponduLe";
    }
  }

  // ---------------------------------------------------------------------------
  // the unit scenarios of the manager

  /** Two requests for one day give the same set, and the provider is asked three times in all. */
  method ExempleCacheParJour(recuperer: Niveau -> seq<QuestionTrivia>)
    returns (premier: Resultat<QuestionsDuJour>, second: Resultat<QuestionsDuJour>, ghost appels: nat)
    requires forall n: Niveau :: |recuperer(n)| > 0
    ensures premier.Ok? && premier == second && appels == 3
    ensures premier.valeur.Etat(Facile).question == recuperer(Facile)[0]
  {
    var g := new GestionnaireQuestionsDuJour(None, "2024-01-01T00:00:00.000Z");
    premier := g.ObtenirJeuPour("2024-01-01", recuperer, "2024-01-01T00:00:00.000Z");
    second := g.ObtenirJeuPour("2024-01-01", recuperer, "2024-01-01T15:00:00.000Z");
    appels := g.appelsFournisseur;
  }

  /** A user has not answered before the write, and has after it. */
  method ExempleParticipation(recuperer: Niveau -> seq<QuestionTrivia>) returns (avant: bool, apres: bool)
    requires forall n: Niveau :: |recuperer(n)| > 0
    ensures !avant && apres
  {
    var g := new GestionnaireQuestionsDuJour(None, "2024-02-10T00:00:00.000Z");
    var jeu := g.ObtenirJeuPour("2024-02-10", recuperer, "2024-02-10T00:00:00.000Z");
    avant := g.ADejaRepondu("2024-02-10", Facile, "user1", "guild");
    var ok := g.EnregistrerParticipation("2024-02-10", Facile, "user1", "guild",
                                         Participation(Some("Réponse"), Correct, "2024-02-10T10:00:00.000Z"));
    apres := g.ADejaRepondu("2024-02-10", Facile, "user1", "guild");
  }

  /** A provider with no question makes the request fail and caches nothing. */
  method ExempleAucuneQuestion() returns (r: Resultat<QuestionsDuJour>, enCache: bool)
    ensures r == Erreur(MessageAucuneQuestion(Facile)) && !enCache
  {
    var g := new GestionnaireQuestionsDuJour(None, "2024-03-01T00:00:00.000Z");
    r := g.ObtenirJeuPour("2024-03-01", n => [], "2024-03-01T00:00:00.000Z");
    enCache := "2024-03-01" in g.cache;
  }
}
