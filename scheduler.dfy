/**
 * The daily announcement scheduler: when to post next, whether a missed
 * announcement is caught up, and what posting does to the session registry.
 * Instants are integer milliseconds in one fixed time zone.
 */
module Planification {
  import opened Commun
  import opened Texte
  import opened Sessions
  import opened ServiceQuestionsDuJour

  const MsParMinute: int := 60000
  const MsParHeure: int := 3600000
  const MsParJour: int := 86400000

  /** Delay used to catch up a missed announcement. */
  const DelaiRattrapage: int := 10

  const PrefixeCustomId: string := "question"

  /** Midnight of the day of `t`. */
  function DebutJour(t: int): int
  {
    t - t % MsParJour
  }

  /** Today's announcement time: the configured hour and minute, seconds and milliseconds zeroed. */
  function HoraireJour(maintenant: int, heure: int, minute: int): int
  {
    DebutJour(maintenant) + heure * MsParHeure + minute * MsParMinute
  }

  /** Position of an instant within its day. */
  function HeureDuJour(t: int): int
  {
    t % MsParJour
  }

  /** Offset of the announcement from midnight. */
  function Decalage(heure: int, minute: int): int
  {
    heure * MsParHeure + minute * MsParMinute
  }

  /** `doiventPublierImmediatement`: no session today and today's time already passed. */
  predicate DoiventPublierImmediatement(sessionDuJour: Option<SessionQuotidienne>, maintenant: int, heure: int, minute: int)
    ensures DoiventPublierImmediatement(sessionDuJour, maintenant, heure, minute) <==>
              sessionDuJour.None? && HeureDuJour(maintenant) > Decalage(heure, minute)
  {
    sessionDuJour.None? && maintenant > HoraireJour(maintenant, heure, minute)
  }

  /**
   * `calculerDelaiMs`: 10 ms to catch up, otherwise the delay to the next
   * announcement time strictly after now; never below 1 ms.
   */
  function CalculerDelaiMs(sessionDuJour: Option<SessionQuotidienne>, maintenant: int, heure: int, minute: int): (d: int)
    ensures d >= 1
    ensures DoiventPublierImmediatement(sessionDuJour, maintenant, heure, minute) ==> d == DelaiRattrapage
  {
    if DoiventPublierImmediatement(sessionDuJour, maintenant, heure, minute) then DelaiRattrapage
    else
      var aujourdhui := HoraireJour(maintenant, heure, minute);
      var prochain := if aujourdhui > maintenant then aujourdhui else aujourdhui + MsParJour;
      if prochain - maintenant > 1 then prochain - maintenant else 1
  }

  /**
   * With a valid hour and minute and no catch-up, the delay lands on the
   * announcement time, within one day, and no earlier instant does.
   */
  lemma DelaiVersProchainHoraire(sessionDuJour: Option<SessionQuotidienne>, maintenant: int, heure: int, minute: int)
    requires 0 <= heure < 24 && 0 <= minute < 60
    requires !DoiventPublierImmediatement(sessionDuJour, maintenant, heure, minute)
    ensures var d := CalculerDelaiMs(sessionDuJour, maintenant, heure, minute);
            d <= MsParJour && HeureDuJour(maintenant + d) == Decalage(heure, minute)
            && forall t :: maintenant < t < maintenant + d ==> HeureDuJour(t) != Decalage(heure, minute)
  {
    var d := CalculerDelaiMs(sessionDuJour, maintenant, heure, minute);
    var q := maintenant / MsParJour;
    var r := maintenant % MsParJour;
    var off := Decalage(heure, minute);
    assert maintenant == q * MsParJour + r;
    assert DebutJour(maintenant) == q * MsParJour;
    assert 0 <= off < MsParJour;
    if off > r {
      assert d == off - r;
      ResteJour(q, off);
      forall t | maintenant < t < maintenant + d ensures HeureDuJour(t) != off {
        ResteJour(q, t - q * MsParJour);
      }
    } else {
      assert d == MsParJour + off - r;
      ResteJour(q + 1, off);
      assert maintenant + d == (q + 1) * MsParJour + off;
      forall t | maintenant < t < maintenant + d ensures HeureDuJour(t) != off {
        if t < (q + 1) * MsParJour {
          ResteJour(q, t - q * MsParJour);
        } else {
          ResteJour(q + 1, t - (q + 1) * MsParJour);
        }
      }
    }
  }

  lemma ResteJour(q: int, r: int)
    requires 0 <= r < MsParJour
    ensures (q * MsParJour + r) % MsParJour == r
  {
  }

  /** An existing session for today always rules out the catch-up. */
  lemma SessionEmpecheRattrapage(s: SessionQuotidienne, maintenant: int, heure: int, minute: int)
    ensures !DoiventPublierImmediatement(Some(s), maintenant, heure, minute)
    ensures 0 <= heure < 24 && 0 <= minute < 60 ==> CalculerDelaiMs(Some(s), maintenant, heure, minute) > 0
  {
  }

  // ---------------------------------------------------------------------------
  // button ids

  /** The id of a tier's button on the announcement of day `cle`. */
  function CustomIdBouton(n: Niveau, cle: string): string
  {
    PrefixeCustomId + "|" + NiveauTexte(n) + "|" + cle
  }

  /** `estBoutonQuestion`. */
  predicate EstBoutonQuestion(customId: string)
  {
    StartsWith(customId, PrefixeCustomId + "|")
  }

  /** The first three `|`-separated pieces; missing pieces are undefined. */
  datatype CustomIdDecompose = CustomIdDecompose(prefix: string, niveau: Option<string>, cle: Option<string>)

  /** `decomposerCustomId`. */
  function DecomposerCustomId(customId: string): (r: CustomIdDecompose)
    ensures '|' !in r.prefix
    ensures r.niveau.Some? ==> '|' !in r.niveau.valeur
    ensures r.cle.Some? ==> '|' !in r.cle.valeur
  {
    var morceaux := Split(customId, '|');
    CustomIdDecompose(morceaux[0],
                      if |morceaux| > 1 then Some(morceaux[1]) else None,
                      if |morceaux| > 2 then Some(morceaux[2]) else None)
  }

  /** A button id decomposes back into its tier and day key when the key holds no `|`. */
  lemma DecomposerCustomIdBouton(n: Niveau, cle: string)
    requires '|' !in cle
    ensures EstBoutonQuestion(CustomIdBouton(n, cle))
    ensures DecomposerCustomId(CustomIdBouton(n, cle)) == CustomIdDecompose(PrefixeCustomId, Some(NiveauTexte(n)), Some(cle))
  {
    var parts := [PrefixeCustomId, NiveauTexte(n), cle];
    assert '|' !in NiveauTexte(n) by { match n case Facile => case Moyen => case Difficile => }
    assert parts[1..] == [NiveauTexte(n), cle];
    assert [NiveauTexte(n), cle][1..] == [cle];
    assert Join([NiveauTexte(n), cle], '|') == NiveauTexte(n) + ['|'] + cle;
    assert Join(parts, '|') == PrefixeCustomId + ['|'] + (NiveauTexte(n) + ['|'] + cle);
    assert Join(parts, '|') == CustomIdBouton(n, cle);
    SplitJoin(parts, '|');
    assert CustomIdBouton(n, cle)[..|PrefixeCustomId + "|"|] == PrefixeCustomId + "|";
  }

  /** An id is a question button exactly when its first piece is the prefix and a second piece follows. */
  lemma EstBoutonQuestionDecompose(customId: string)
    ensures EstBoutonQuestion(customId) <==>
              DecomposerCustomId(customId).prefix == PrefixeCustomId && DecomposerCustomId(customId).niveau.Some?
  {
    var morceaux := Split(customId, '|');
    var p := PrefixeCustomId + "|";
    if EstBoutonQuestion(customId) {
      var reste := customId[|p|..];
      assert customId == PrefixeCustomId + ['|'] + reste;
      SplitApresMorceau(PrefixeCustomId, '|', reste);
    }
    if morceaux[0] == PrefixeCustomId && |morceaux| > 1 {
      JoinSplit(customId, '|');
      assert Join(morceaux, '|') == morceaux[0] + ['|'] + Join(morceaux[1..], '|');
      assert customId[..|p|] == p;
    }
  }

  // ---------------------------------------------------------------------------
  // posting

  /** What the Discord side hands back once the announcement and its thread exist. */
  datatype Publication = Publication(messageId: string, threadId: string, creeLe: string)

  datatype IssuePublication =
    | DejaPubliee
    | SalonIntrouvable
    | EchecQuestions(message: string)
    | Publiee(session: SessionQuotidienne)

  /**
   * The decision part of `publierAnnonceQuotidienne`. `salon` is the id of
   * the questions channel when it resolves to a text channel; `publication`
   * stands for the message and thread the post creates.
   */
  method PublierAnnonceQuotidienne(registre: RegistreSessions, gestionnaire: GestionnaireQuestionsDuJour,
                                   cle: string, questions: Option<QuestionsDuJour>, force: bool,
                                   salon: Option<string>, publication: Publication,
                                   recuperer: Niveau -> seq<QuestionTrivia>, genereLe: string)
    returns (issue: IssuePublication)
    requires registre.Valid() && gestionnaire.Valid()
    modifies registre, gestionnaire
    ensures registre.Valid() && gestionnaire.Valid()
    ensures issue.DejaPubliee? <==> cle in old(registre.sessions) && !force
    ensures issue.DejaPubliee? || issue.SalonIntrouvable? ==> registre.sessions == old(registre.sessions) && gestionnaire.cache == old(gestionnaire.cache)
    ensures issue.SalonIntrouvable? <==> !(cle in old(registre.sessions) && !force) && salon.None?
    ensures issue.EchecQuestions? ==> registre.sessions == old(registre.sessions) - {cle} && questions.None?
    ensures issue.Publiee? ==> registre.sessions == (old(registre.sessions) - {cle})[issue.session.cle := issue.session]
    ensures issue.Publiee? ==> issue.session == SessionQuotidienne(issue.session.cle, publication.messageId, publication.threadId, salon.valeur, publication.creeLe)
    ensures issue.Publiee? && questions.Some? ==> issue.session.cle == questions.valeur.cle
    ensures issue.Publiee? && questions.None? ==> issue.session.cle == cle
    ensures questions.Some? ==> gestionnaire.cache == old(gestionnaire.cache)
  {
    var existante := registre.Obtenir(cle);
    if existante.Some? && !force {
      return DejaPubliee;
    }
    if salon.None? {
      return SalonIntrouvable;
    }
    if force && existante.Some? {
      registre.Supprimer(cle);
    }
    assert registre.sessions == old(registre.sessions) - {cle};
    var jeu: QuestionsDuJour;
    if questions.Some? {
      jeu := questions.valeur;
    } else {
      var r := gestionnaire.ObtenirJeuPour(cle, recuperer, genereLe);
      if r.Erreur? {
        return EchecQuestions(r.message);
      }
      jeu := r.valeur;
    }
    var session := SessionQuotidienne(jeu.cle, publication.messageId, publication.threadId, salon.valeur, publication.creeLe);
    registre.Enregistrer(session);
    issue := Publiee(session);
  }

  /** The timer state of the scheduler. */
  class PlanificateurAnnonceQuotidienne {
    /** The delay of the armed cycle, or None when stopped. */
    var timer: Option<int>

    constructor()
      ensures timer == None
    {
      timer := None;
    }

    /** `arreter`: no cycle remains armed; stopping twice is the same as once. */
    method Arreter()
      modifies this
      ensures timer == None
    {
      if timer.Some? {
        timer := None;
      }
    }

    /** `planifierProchainCycle` (also `demarrer`): arms the next cycle at the computed delay. */
    method PlanifierProchainCycle(sessionDuJour: Option<SessionQuotidienne>, maintenant: int, heure: int, minute: int)
      modifies this
      ensures timer == Some(CalculerDelaiMs(sessionDuJour, maintenant, heure, minute))
      ensures timer.valeur >= 1
    {
      timer := Some(CalculerDelaiMs(sessionDuJour, maintenant, heure, minute));
    }

    /**
     * One cycle: post, then re-arm whatever the post's outcome, with the
     * session registry as the post left it.
     */
    method ExecuterCycle(registre: RegistreSessions, gestionnaire: GestionnaireQuestionsDuJour, cle: string,
                         salon: Option<string>, publication: Publication, recuperer: Niveau -> seq<QuestionTrivia>,
                         genereLe: string, maintenant: int, heure: int, minute: int)
      returns (issue: IssuePublication)
      requires registre.Valid() && gestionnaire.Valid()
      modifies this, registre, gestionnaire
      ensures registre.Valid() && gestionnaire.Valid()
      ensures timer == Some(CalculerDelaiMs(registre.Obtenir(cle), maintenant, heure, minute))
      ensures issue.Publiee? || issue.DejaPubliee? ==> !DoiventPublierImmediatement(registre.Obtenir(cle), maintenant, heure, minute)
    {
      issue := PublierAnnonceQuotidienne(registre, gestionnaire, cle, None, false, salon, publication, recuperer, genereLe);
      PlanifierProchainCycle(registre.Obtenir(cle), maintenant, heure, minute);
    }
  }

  /** Stopping is idempotent, and a stopped scheduler can be armed again. */
  method ExempleArret()
  {
    var p := new PlanificateurAnnonceQuotidienne();
    p.PlanifierProchainCycle(None, 0, 9, 0);
    assert p.timer == Some(9 * MsParHeure);
    p.Arreter();
    p.Arreter();
    assert p.timer == None;
  }

  /** At 10:00 with no session and a 09:00 announcement, the post is caught up after 10 ms. */
  method ExempleRattrapage()
  {
    var maintenant := 10 * MsParHeure;
    var d := CalculerDelaiMs(None, maintenant, 9, 0);
    assert d == DelaiRattrapage;
  }
}
