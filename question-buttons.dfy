/**
 * Pressing a tier button on the daily announcement: parse the button id,
 * refuse replays, ask the question, record the participation and, for a
 * correct answer, credit the same points on all four leaderboards.
 */
module BoutonsQuestion {
  import opened Commun
  import opened Texte
  import opened Scoring
  import opened Classements
  import opened Sessions
  import opened ServiceQuestionsDuJour
  import opened Planification

  // ---------------------------------------------------------------------------
  // button ids

  datatype AnalyseBouton = AnalyseBouton(niveau: Niveau, cle: string)

  /** `analyserCustomId`: prefix `question`, a known tier and a non-empty day key. */
  function AnalyserCustomId(customId: string): (r: Option<AnalyseBouton>)
    ensures r.Some? ==> EstBoutonQuestion(customId) && r.valeur.cle != "" && '|' !in r.valeur.cle
    ensures r.Some? ==> DecomposerCustomId(customId) == CustomIdDecompose(PrefixeCustomId, Some(NiveauTexte(r.valeur.niveau)), Some(r.valeur.cle))
  {
    var d := DecomposerCustomId(customId);
    var niveauBrut := d.niveau.GetOr("");
    var cle := d.cle.GetOr("");
    if d.prefix != PrefixeCustomId || niveauBrut == "" || cle == "" then None
    else
      var niveau := NiveauDepuisTexte(niveauBrut);
      if niveau.None? then None
      else
        EstBoutonQuestionDecompose(customId);
        Some(AnalyseBouton(niveau.valeur, cle))
  }

  /** Every button the scheduler posts is parsed back into its tier and day key. */
  lemma AnalyserCustomIdBouton(n: Niveau, cle: string)
    requires cle != "" && '|' !in cle
    ensures AnalyserCustomId(CustomIdBouton(n, cle)) == Some(AnalyseBouton(n, cle))
  {
    DecomposerCustomIdBouton(n, cle);
  }

  /** A button id without a day key is refused. */
  lemma AnalyserSansCle(n: Niveau)
    ensures AnalyserCustomId(PrefixeCustomId + "|" + NiveauTexte(n)).None?
  {
    var id := PrefixeCustomId + "|" + NiveauTexte(n);
    assert '|' !in NiveauTexte(n) by { match n case Facile => case Moyen => case Difficile => }
    assert [PrefixeCustomId, NiveauTexte(n)][1..] == [NiveauTexte(n)];
    assert Join([PrefixeCustomId, NiveauTexte(n)], '|') == id;
    SplitJoin([PrefixeCustomId, NiveauTexte(n)], '|');
  }

  // ---------------------------------------------------------------------------
  // comparing answers

  /**
   * Canonical decomposition followed by removal of diacritics, one character
   * at a time: `retirer(c)` is what character `c` becomes.
   */
  function SansDiacritiques(s: string, retirer: char -> string): string
  {
    if s == [] then [] else retirer(s[0]) + SansDiacritiques(s[1..], retirer)
  }

  /** `normaliserTexte`: diacritics removed, trimmed, lower-cased. */
  function NormaliserTexte(texte: string, retirer: char -> string): (r: string)
    ensures |r| <= |SansDiacritiques(texte, retirer)|
    ensures r != [] ==> !EstEspace(r[0]) && !EstEspace(r[|r| - 1])
    ensures forall i :: 0 <= i < |r| ==> LowerChar(r[i]) == r[i]
  {
    var t := Trim(SansDiacritiques(texte, retirer));
    LowerBords(t);
    Lower(t)
  }

  /** Lower-casing keeps text free of white space at its ends and gives text that is its own lower case. */
  lemma LowerBords(t: string)
    ensures t != [] && !EstEspace(t[0]) && !EstEspace(t[|t| - 1]) ==>
              !EstEspace(Lower(t)[0]) && !EstEspace(Lower(t)[|t| - 1])
    ensures forall i :: 0 <= i < |t| ==> LowerChar(Lower(t)[i]) == Lower(t)[i]
  {
    if t != [] {
      assert EstEspace(LowerChar(t[0])) == EstEspace(t[0]);
      assert EstEspace(LowerChar(t[|t| - 1])) == EstEspace(t[|t| - 1]);
    }
  }

  /** `comparerReponse`. */
  predicate ComparerReponse(candidate: string, attendu: string, retirer: char -> string)
    ensures candidate == attendu ==> ComparerReponse(candidate, attendu, retirer)
    ensures Lower(SansDiacritiques(candidate, retirer)) == Lower(SansDiacritiques(attendu, retirer)) ==>
              ComparerReponse(candidate, attendu, retirer)
  {
    LowerTrim(SansDiacritiques(candidate, retirer));
    LowerTrim(SansDiacritiques(attendu, retirer));
    NormaliserTexte(candidate, retirer) == NormaliserTexte(attendu, retirer)
  }

  /** White space has no diacritics and is left as it is. */
  predicate GardeEspaces(retirer: char -> string)
  {
    forall c :: EstEspace(c) ==> retirer(c) == [c]
  }

  lemma {:induction false} SansDiacritiquesConcat(a: string, b: string, retirer: char -> string)
    ensures SansDiacritiques(a + b, retirer) == SansDiacritiques(a, retirer) + SansDiacritiques(b, retirer)
  {
    if a != [] {
      assert (a + b)[1..] == a[1..] + b;
      SansDiacritiquesConcat(a[1..], b, retirer);
    } else {
      assert a + b == b;
    }
  }

  lemma {:induction false} SansDiacritiquesEspaces(e: string, retirer: char -> string)
    requires GardeEspaces(retirer)
    requires forall i :: 0 <= i < |e| ==> EstEspace(e[i])
    ensures SansDiacritiques(e, retirer) == e
  {
    if e != [] {
      SansDiacritiquesEspaces(e[1..], retirer);
      assert [e[0]] + e[1..] == e;
    }
  }

  lemma {:induction false} LowerTrimStart(s: string)
    ensures Lower(TrimStart(s)) == TrimStart(Lower(s))
  {
    if s != [] {
      assert EstEspace(LowerChar(s[0])) == EstEspace(s[0]);
      assert Lower(s)[1..] == Lower(s[1..]);
      LowerTrimStart(s[1..]);
    }
  }

  lemma {:induction false} LowerTrimEnd(s: string)
    ensures Lower(TrimEnd(s)) == TrimEnd(Lower(s))
  {
    if s != [] {
      var l := Lower(s);
      assert l[|s| - 1] == LowerChar(s[|s| - 1]);
      assert EstEspace(l[|l| - 1]) == EstEspace(s[|s| - 1]);
      if EstEspace(s[|s| - 1]) {
        var debut := s[..|s| - 1];
        assert TrimEnd(s) == TrimEnd(debut);
        assert l[..|l| - 1] == Lower(debut);
        assert TrimEnd(l) == TrimEnd(Lower(debut));
        LowerTrimEnd(debut);
      } else {
        assert TrimEnd(s) == s;
        assert TrimEnd(l) == l;
      }
    }
  }

  /** Lower-casing and trimming commute: no capital letter is white space. */
  lemma LowerTrim(s: string)
    ensures Lower(Trim(s)) == Trim(Lower(s))
  {
    LowerTrimStart(s);
    LowerTrimEnd(TrimStart(s));
  }

  /** Comparison is reflexive and symmetric. */
  lemma ComparerReflexifSymetrique(a: string, b: string, retirer: char -> string)
    ensures ComparerReponse(a, a, retirer)
    ensures ComparerReponse(a, b, retirer) == ComparerReponse(b, a, retirer)
  {
  }

  /** White space around an answer makes no difference. */
  lemma ComparerIgnoreEspaces(e1: string, a: string, e2: string, b: string, retirer: char -> string)
    requires GardeEspaces(retirer)
    requires forall i :: 0 <= i < |e1| ==> EstEspace(e1[i])
    requires forall i :: 0 <= i < |e2| ==> EstEspace(e2[i])
    ensures ComparerReponse(e1 + a + e2, b, retirer) == ComparerReponse(a, b, retirer)
  {
    SansDiacritiquesConcat(e1 + a, e2, retirer);
    SansDiacritiquesConcat(e1, a, retirer);
    SansDiacritiquesEspaces(e1, retirer);
    SansDiacritiquesEspaces(e2, retirer);
    TrimIgnoreEspacesAutour(e1, SansDiacritiques(a, retirer), e2);
  }

  /** Answers whose diacritic-free texts differ only in letter case compare equal. */
  lemma ComparerIgnoreCasse(a: string, b: string, retirer: char -> string)
    requires Lower(SansDiacritiques(a, retirer)) == Lower(SansDiacritiques(b, retirer))
    ensures ComparerReponse(a, b, retirer)
  {
    LowerTrim(SansDiacritiques(a, retirer));
    LowerTrim(SansDiacritiques(b, retirer));
  }

  // ---------------------------------------------------------------------------
  // shuffling

  /**
   * `melanger`: a copy of the input, shuffled by swapping each position from
   * the end with a position chosen at or before it (the random choice is
   * left open). The input is not modified.
   */
  method Melanger<T>(elements: array<T>) returns (copie: array<T>)
    ensures fresh(copie)
    ensures copie.Length == elements.Length
    ensures multiset(copie[..]) == multiset(elements[..])
  {
    var source := elements[..];
    copie := new T[|source|](k requires 0 <= k < |source| => source[k]);
    assert copie[..] == source;
    var i := copie.Length - 1;
    while i > 0
      invariant -1 <= i < copie.Length
      invariant multiset(copie[..]) == multiset(source)
    {
      var j :| 0 <= j <= i;
      copie[i], copie[j] := copie[j], copie[i];
      i := i - 1;
    }
  }

  // ---------------------------------------------------------------------------
  // the answer flow

  datatype IssueBouton =
    | CommandeInvalide
    | HorsServeur
    | SessionIntrouvable
    | ErreurRecuperation
    | DejaTente
    | Reussite(points: int)
    | Echec
    | TempsEcoule

  /** The question cache once the day's set has been requested. */
  function CacheObtenu(cache: map<string, QuestionsDuJour>, cle: string, recuperer: Niveau -> seq<QuestionTrivia>, genereLe: string): map<string, QuestionsDuJour>
  {
    if cle in cache then cache
    else
      var g := Generer(cle, recuperer, genereLe);
      if g.Ok? then cache[cle := g.valeur] else cache
  }

  /** The four boards, each credited with the same points for one user. */
  function CrediterPartout(m: map<TypeClassement, Tableau>, u: string, points: real, maintenant: string): (r: map<TypeClassement, Tableau>)
    requires ToutesLesCles(m)
    ensures r.Keys == m.Keys
    ensures r[Quotidien] == Crediter(m[Quotidien], u, points, maintenant)
    ensures r[Hebdomadaire] == Crediter(m[Hebdomadaire], u, points, maintenant)
    ensures r[Mensuel] == Crediter(m[Mensuel], u, points, maintenant)
    ensures r[Global] == Crediter(m[Global], u, points, maintenant)
  {
    m[Quotidien := Crediter(m[Quotidien], u, points, maintenant)]
     [Hebdomadaire := Crediter(m[Hebdomadaire], u, points, maintenant)]
     [Mensuel := Crediter(m[Mensuel], u, points, maintenant)]
     [Global := Crediter(m[Global], u, points, maintenant)]
  }

  /** The participation an attempt's outcome records. */
  function ParticipationPour(issue: IssueBouton, choix: Option<string>, horodatage: string): Participation
  {
    if issue.Reussite? then Participation(choix, Correct, horodatage)
    else if issue.Echec? then Participation(choix, Incorrect, horodatage)
    else Participation(None, Timeout, horodatage)
  }

  /** Whether the menu produced an answer: no selection and an empty text both count as running out of time. */
  predicate ChoixExprime(choix: Option<string>)
  {
    choix.Some? && choix.valeur != ""
  }

  /**
   * An attempt on a set that is cached and not yet answered: records the
   * participation and, for a correct answer, credits all four boards.
   */
  method EnregistrerTentative(cle: string, niveau: Niveau, guildId: string, utilisateurId: string,
                              gestionnaire: GestionnaireQuestionsDuJour, service: ServiceClassements,
                              choix: Option<string>, retirer: char -> string,
                              annonceMs: int, maintenantMs: int, horodatage: string)
    returns (issue: IssueBouton)
    requires gestionnaire.Valid() && service.Valid() && cle in gestionnaire.cache
    modifies gestionnaire, service
    ensures gestionnaire.Valid() && service.Valid()
    ensures issue.Reussite? || issue.Echec? || issue.TempsEcoule?
    ensures issue.TempsEcoule? <==> !ChoixExprime(choix)
    ensures issue.Reussite? <==> (ChoixExprime(choix)
              && ComparerReponse(choix.valeur, old(gestionnaire.cache)[cle].Etat(niveau).question.reponse, retirer))
    ensures gestionnaire.cache == old(gestionnaire.cache)[cle := Participer(old(gestionnaire.cache)[cle], niveau, guildId, utilisateurId,
                                                                           ParticipationPour(issue, choix, horodatage))]
    ensures issue.Reussite? ==> (issue.points == CalculerPoints(niveau, annonceMs, maintenantMs).points
              && service.classements == CrediterPartout(old(service.classements), utilisateurId, issue.points as real, horodatage))
    ensures !issue.Reussite? ==> service.classements == old(service.classements)
  {
    var etat := gestionnaire.cache[cle].Etat(niveau);
    if !ChoixExprime(choix) {
      issue := TempsEcoule;
    } else if ComparerReponse(choix.valeur, etat.question.reponse, retirer) {
      var score := CalculerPoints(niveau, annonceMs, maintenantMs);
      ghost var avant := service.classements;
      service.AjouterScore(Quotidien, utilisateurId, score.points as real, horodatage);
      service.AjouterScore(Hebdomadaire, utilisateurId, score.points as real, horodatage);
      service.AjouterScore(Mensuel, utilisateurId, score.points as real, horodatage);
      service.AjouterScore(Global, utilisateurId, score.points as real, horodatage);
      issue := Reussite(score.points);
    } else {
      issue := Echec;
    }
    var r := gestionnaire.EnregistrerParticipation(cle, niveau, utilisateurId, guildId, ParticipationPour(issue, choix, horodatage));
  }

  /**
   * `traiterBoutonQuestion` with `gererSucces` and `gererEchec`. `choix` is
   * the text picked in the answer menu (None when the 20 s ran out),
   * `annonceMs` the instant of the session's announcement, `maintenantMs` and
   * `horodatage` the instant of the answer.
   */
  method TraiterBoutonQuestion(customId: string, guildId: Option<string>, utilisateurId: string,
                               registre: RegistreSessions, gestionnaire: GestionnaireQuestionsDuJour,
                               service: ServiceClassements, recuperer: Niveau -> seq<QuestionTrivia>, genereLe: string,
                               choix: Option<string>, retirer: char -> string,
                               annonceMs: int, maintenantMs: int, horodatage: string)
    returns (issue: IssueBouton)
    requires gestionnaire.Valid() && service.Valid()
    modifies gestionnaire, service
    ensures gestionnaire.Valid() && service.Valid()
    ensures issue.CommandeInvalide? <==> AnalyserCustomId(customId).None?
    ensures issue.HorsServeur? <==> AnalyserCustomId(customId).Some? && guildId.None?
    ensures issue.SessionIntrouvable? <==> AnalyserCustomId(customId).Some? && guildId.Some? && AnalyserCustomId(customId).valeur.cle !in registre.sessions
    ensures issue.CommandeInvalide? || issue.HorsServeur? || issue.SessionIntrouvable? || issue.ErreurRecuperation? || issue.DejaTente? ==>
              gestionnaire.cache == old(gestionnaire.cache) && service.classements == old(service.classements)
    ensures issue.ErreurRecuperation? ==> var a := AnalyserCustomId(customId).valeur;
              a.cle !in old(gestionnaire.cache) && Generer(a.cle, recuperer, genereLe).Erreur?
    ensures issue.DejaTente? ==> var a := AnalyserCustomId(customId).valeur;
              a.cle in old(gestionnaire.cache) && DejaReponduDans(old(gestionnaire.cache)[a.cle].Etat(a.niveau).participants, guildId.valeur, utilisateurId)
    ensures issue.Reussite? || issue.Echec? || issue.TempsEcoule? ==>
              var a := AnalyserCustomId(customId).valeur;
              var pre := CacheObtenu(old(gestionnaire.cache), a.cle, recuperer, genereLe);
              a.cle in pre && !DejaReponduDans(pre[a.cle].Etat(a.niveau).participants, guildId.valeur, utilisateurId)
              && (issue.TempsEcoule? <==> !ChoixExprime(choix))
              && (issue.Reussite? <==> ChoixExprime(choix) && ComparerReponse(choix.valeur, pre[a.cle].Etat(a.niveau).question.reponse, retirer))
              && gestionnaire.cache == pre[a.cle := Participer(pre[a.cle], a.niveau, guildId.valeur, utilisateurId,
                                                               ParticipationPour(issue, choix, horodatage))]
    ensures issue.Reussite? ==> (issue.points == CalculerPoints(AnalyserCustomId(customId).valeur.niveau, annonceMs, maintenantMs).points
              && service.classements == CrediterPartout(old(service.classements), utilisateurId, issue.points as real, horodatage))
    ensures issue.Echec? || issue.TempsEcoule? ==> service.classements == old(service.classements)
  {
    var analyse := AnalyserCustomId(customId);
    if analyse.None? {
      return CommandeInvalide;
    }
    var niveau, cle := analyse.valeur.niveau, analyse.valeur.cle;
    if guildId.None? {
      return HorsServeur;
    }
    var session := registre.Obtenir(cle);
    if session.None? {
      return SessionIntrouvable;
    }
    var obtenu := gestionnaire.ObtenirJeuPour(cle, recuperer, genereLe);
    if obtenu.Erreur? {
      return ErreurRecuperation;
    }
    assert gestionnaire.cache == CacheObtenu(old(gestionnaire.cache), cle, recuperer, genereLe);
    if gestionnaire.ADejaRepondu(cle, niveau, utilisateurId, guildId.valeur) {
      return DejaTente;
    }
    issue := EnregistrerTentative(cle, niveau, guildId.valeur, utilisateurId, gestionnaire, service, choix, retirer,
                                  annonceMs, maintenantMs, horodatage);
  }

  /** Once an attempt is recorded, pressing the same button again is refused as a replay. */
  method PressionRepetee(customId: string, guildId: string, utilisateurId: string,
                         registre: RegistreSessions, gestionnaire: GestionnaireQuestionsDuJour,
                         service: ServiceClassements, recuperer: Niveau -> seq<QuestionTrivia>, genereLe: string,
                         choix: Option<string>, retirer: char -> string, annonceMs: int, maintenantMs: int, horodatage: string)
    returns (premier: IssueBouton, second: IssueBouton)
    requires gestionnaire.Valid() && service.Valid()
    modifies gestionnaire, service
    ensures premier.Reussite? || premier.Echec? || premier.TempsEcoule? ==> second == DejaTente
  {
    premier := TraiterBoutonQuestion(customId, Some(guildId), utilisateurId, registre, gestionnaire, service, recuperer,
                                     genereLe, choix, retirer, annonceMs, maintenantMs, horodatage);
    ghost var apres := gestionnaire.cache;
    if premier.Reussite? || premier.Echec? || premier.TempsEcoule? {
      var a := AnalyserCustomId(customId).valeur;
      var pre := CacheObtenu(old(gestionnaire.cache), a.cle, recuperer, genereLe);
      EnregistrerPuisDejaRepondu(pre[a.cle].Etat(a.niveau).participants, guildId, utilisateurId, ParticipationPour(premier, choix, horodatage));
      assert DejaReponduDans(apres[a.cle].Etat(a.niveau).participants, guildId, utilisateurId);
    }
    second := TraiterBoutonQuestion(customId, Some(guildId), utilisateurId, registre, gestionnaire, service, recuperer,
                                    genereLe, choix, retirer, annonceMs, maintenantMs, horodatage);
  }
}
