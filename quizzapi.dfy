/**
 * The QuizzAPI question client: one request per call, every missing field
 * of a returned quiz replaced by a default.
 */
module QuizzApi {
  import opened Commun
  import opened Texte
  import opened Propositions

  /** One quiz as the API returns it; None stands for an absent (or, for `badAnswers`, non-array) field. */
  datatype QuizzDto = QuizzDto(
    id: Option<string>,
    question: Option<string>,
    answer: Option<string>,
    badAnswers: Option<seq<string>>,
    category: Option<string>,
    difficulty: Option<string>)

  /** The query string sent to `/quiz`. */
  datatype RequeteQuizz = RequeteQuizz(limit: int, difficulty: Option<string>, category: Option<string>)

  /** The HTTP outcome: a transport error, or a body whose `quizzes` may be missing. */
  datatype ReponseQuizz = EchecHttp(message: string) | Corps(quizzes: Option<seq<QuizzDto>>)

  const LimiteParDefaut: int := 3
  const LongueurIdentifiant: nat := 32

  /** `normaliserDifficulte`: a case-insensitive search for "fac", then "dif"; anything else is medium. */
  function NormaliserDifficulte(d: Option<string>): (n: Niveau)
    ensures n == Facile <==> Contains(Lower(d.GetOr("")), "fac")
    ensures n == Difficile <==> !Contains(Lower(d.GetOr("")), "fac") && Contains(Lower(d.GetOr("")), "dif")
  {
    var valeur := Lower(d.GetOr(""));
    if Contains(valeur, "fac") then Facile
    else if Contains(valeur, "dif") then Difficile
    else Moyen
  }

  /** `mapperDifficultePourApi`: the API calls the medium tier "normal". */
  function MapperDifficultePourApi(d: Option<Niveau>): (r: Option<string>)
    ensures r.None? <==> d.None?
    ensures d == Some(Moyen) ==> r == Some("normal")
    ensures d.Some? && d.valeur != Moyen ==> r == Some(NiveauTexte(d.valeur))
  {
    if d.None? then None
    else if d.valeur == Moyen then Some("normal")
    else Some(NiveauTexte(d.valeur))
  }

  /** Lower-case text is its own lower case. */
  lemma MinusculesInchangees(s: string)
    requires forall i :: 0 <= i < |s| ==> 'a' <= s[i] <= 'z'
    ensures Lower(s) == s
  {
  }

  /** Lower-case text starting with "fac" reads as the easy tier. */
  lemma LectureFac(s: string)
    requires forall i :: 0 <= i < |s| ==> 'a' <= s[i] <= 'z'
    requires 3 <= |s| && s[..3] == "fac"
    ensures NormaliserDifficulte(Some(s)) == Facile
  {
    MinusculesInchangees(s);
    ContainsSousChaine(s, "fac", 0);
  }

  /** Lower-case text starting with "dif" and without any 'a' reads as the hard tier. */
  lemma LectureDif(s: string)
    requires forall i :: 0 <= i < |s| ==> 'a' <= s[i] <= 'z'
    requires 3 <= |s| && s[..3] == "dif" && 'a' !in s
    ensures NormaliserDifficulte(Some(s)) == Difficile
  {
    MinusculesInchangees(s);
    ContainsManque(s, "fac", 'a');
    ContainsSousChaine(s, "dif", 0);
  }

  /** Lower-case text without 'f' reads as the medium tier. */
  lemma LectureSansF(s: string)
    requires forall i :: 0 <= i < |s| ==> 'a' <= s[i] <= 'z'
    requires 'f' !in s
    ensures NormaliserDifficulte(Some(s)) == Moyen
  {
    MinusculesInchangees(s);
    ContainsManque(s, "fac", 'f');
    ContainsManque(s, "dif", 'f');
  }

  lemma LectureFacile()
    ensures NormaliserDifficulte(Some("facile")) == Facile
  {
    LectureFac("facile");
  }

  lemma LectureNormal()
    ensures NormaliserDifficulte(Some("normal")) == Moyen
  {
    LectureSansF("normal");
  }

  lemma LectureDifficile()
    ensures NormaliserDifficulte(Some("difficile")) == Difficile
  {
    LectureDif("difficile");
  }

  /** Sending a tier to the API and reading the difficulty back gives the same tier. */
  lemma DifficulteAllerRetour(n: Niveau)
    ensures NormaliserDifficulte(MapperDifficultePourApi(Some(n))) == n
  {
    match n
    case Facile => LectureFacile();
    case Moyen => LectureNormal();
    case Difficile => LectureDifficile();
  }

  /** `genererIdentifiantFallback`: the first 32 characters of a non-empty question, else a time-stamped id. */
  function IdentifiantDeSecours(question: Option<string>, maintenant: int): (id: string)
    ensures question.Some? && question.valeur != "" ==> |id| <= LongueurIdentifiant && StartsWith(question.valeur, id)
    ensures question.Some? && question.valeur != "" && |question.valeur| <= LongueurIdentifiant ==> id == question.valeur
    ensures question.Some? && |question.valeur| > LongueurIdentifiant ==> id == question.valeur[..LongueurIdentifiant]
    ensures question.None? || question == Some("") ==> id == "question-" + IntToString(maintenant)
  {
    if question.Some? && |question.valeur| > 0 then
      question.valeur[..if |question.valeur| < LongueurIdentifiant then |question.valeur| else LongueurIdentifiant]
    else "question-" + IntToString(maintenant)
  }

  /** `formaterQuestion`: every field present is kept, every missing one gets its default. */
  function FormaterQuestion(e: QuizzDto, maintenant: int): (q: QuestionTrivia)
    ensures q.reponse == e.answer.GetOr("Réponse inconnue")
    ensures q.question == e.question.GetOr("Question indisponible")
    ensures q.categorie == e.category.GetOr("Général")
    ensures q.id == if e.id.Some? then e.id.valeur else IdentifiantDeSecours(e.question, maintenant)
    ensures q.propositions == GenererPropositions(q.reponse, e.badAnswers.GetOr([]))
    ensures q.difficulte == NormaliserDifficulte(e.difficulty)
  {
    var reponse := e.answer.GetOr("Réponse inconnue");
    QuestionTrivia(
      if e.id.Some? then e.id.valeur else IdentifiantDeSecours(e.question, maintenant),
      e.question.GetOr("Question indisponible"),
      GenererPropositions(reponse, e.badAnswers.GetOr([])),
      reponse,
      e.category.GetOr("Général"),
      NormaliserDifficulte(e.difficulty))
  }

  function RequeteDe(difficulte: Option<Niveau>, categorie: Option<string>, limite: Option<int>): (q: RequeteQuizz)
    ensures q.limit == limite.GetOr(LimiteParDefaut)
    ensures q.difficulty == MapperDifficultePourApi(difficulte) && q.category == categorie
  {
    RequeteQuizz(limite.GetOr(LimiteParDefaut), MapperDifficultePourApi(difficulte), categorie)
  }

  /** `recupererQuestions`: one formatted question per quiz returned; transport errors are rethrown. */
  function RecupererQuestions(difficulte: Option<Niveau>, categorie: Option<string>, limite: Option<int>,
                              api: RequeteQuizz -> ReponseQuizz, maintenant: int): (r: Resultat<seq<QuestionTrivia>>)
    ensures r.Erreur? <==> api(RequeteDe(difficulte, categorie, limite)).EchecHttp?
    ensures r.Erreur? ==> r.message == api(RequeteDe(difficulte, categorie, limite)).message
    ensures r.Ok? ==> var quizzes := api(RequeteDe(difficulte, categorie, limite)).quizzes.GetOr([]);
                      |r.valeur| == |quizzes| &&
                      forall i :: 0 <= i < |quizzes| ==> r.valeur[i] == FormaterQuestion(quizzes[i], maintenant)
  {
    match api(RequeteDe(difficulte, categorie, limite))
    case EchecHttp(message) => Erreur(message)
    case Corps(quizzes) =>
      var liste := quizzes.GetOr([]);
      Ok(seq(|liste|, i requires 0 <= i < |liste| => FormaterQuestion(liste[i], maintenant)))
  }

  /** A quiz with distinct answers lists the right one first, then the wrong ones in order. */
  lemma PropositionsDansLOrdre(e: QuizzDto, maintenant: int)
    requires e.answer.Some? && e.badAnswers.Some?
    requires SansDoublon([e.answer.valeur] + e.badAnswers.valeur)
    ensures FormaterQuestion(e, maintenant).propositions == [e.answer.valeur] + e.badAnswers.valeur
  {
  }

  /** An empty quiz gets every default. */
  lemma QuizzVide(maintenant: int)
    ensures var q := FormaterQuestion(QuizzDto(None, None, None, None, None, None), maintenant);
            q == QuestionTrivia("question-" + IntToString(maintenant), "Question indisponible", ["Réponse inconnue"],
                                "Réponse inconnue", "Général", Moyen)
  {
    var q := FormaterQuestion(QuizzDto(None, None, None, None, None, None), maintenant);
    assert Lower("") == "";
    assert !Contains("", "fac") && !Contains("", "dif");
    assert q.propositions == ["Réponse inconnue"];
  }
}
