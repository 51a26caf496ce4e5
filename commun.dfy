/** Domain vocabulary shared by every part of the daily trivia engine. */
module Commun {

  datatype Option<+T> = None | Some(valeur: T)
  {
    function GetOr(defaut: T): T
    {
      match this
      case Some(v) => v
      case None => defaut
    }
  }

  /** Outcome of an operation the source lets throw: a value, or the error's message. */
  datatype Resultat<+T> = Ok(valeur: T) | Erreur(message: string)

  /** Difficulty tier of a question of the day. */
  datatype Niveau = Facile | Moyen | Difficile

  const Niveaux: seq<Niveau> := [Facile, Moyen, Difficile]

  lemma NiveauxExhaustifs()
    ensures forall n: Niveau :: n in Niveaux
  {
    forall n: Niveau ensures n in Niveaux {
      assert Niveaux[RangNiveau(n)] == n;
    }
  }

  /** Position of a tier in the fixed order facile, moyen, difficile. */
  function RangNiveau(n: Niveau): (i: nat)
    ensures i < |Niveaux| && Niveaux[i] == n
  {
    match n
    case Facile => 0
    case Moyen => 1
    case Difficile => 2
  }

  function NiveauTexte(n: Niveau): string
  {
    match n
    case Facile => "facile"
    case Moyen => "moyen"
    case Difficile => "difficile"
  }

  /** Reads a tier back from its identifier; anything else is unknown. */
  function NiveauDepuisTexte(s: string): (r: Option<Niveau>)
    ensures r.Some? ==> NiveauTexte(r.valeur) == s
    ensures forall n: Niveau :: NiveauTexte(n) == s ==> r == Some(n)
  {
    if s == "facile" then Some(Facile)
    else if s == "moyen" then Some(Moyen)
    else if s == "difficile" then Some(Difficile)
    else None
  }

  /** The four leaderboards. */
  datatype TypeClassement = Quotidien | Hebdomadaire | Mensuel | Global

  const TypesClassement: seq<TypeClassement> := [Quotidien, Hebdomadaire, Mensuel, Global]

  /** A record keyed by board type: all four keys are present. */
  predicate ToutesLesCles<V>(m: map<TypeClassement, V>)
  {
    forall t: TypeClassement :: t in m
  }

  lemma ToutesLesClesPresentes<V>(m: map<TypeClassement, V>)
    requires Quotidien in m && Hebdomadaire in m && Mensuel in m && Global in m
    ensures ToutesLesCles(m)
  {
    forall t: TypeClassement ensures t in m {
      match t
      case Quotidien =>
      case Hebdomadaire =>
      case Mensuel =>
      case Global =>
    }
  }

  /** Position of a board type in the fixed iteration order. */
  function Rang(t: TypeClassement): (i: nat)
    ensures i < |TypesClassement| && TypesClassement[i] == t
  {
    match t
    case Quotidien => 0
    case Hebdomadaire => 1
    case Mensuel => 2
    case Global => 3
  }

  function TypeTexte(t: TypeClassement): string
  {
    match t
    case Quotidien => "quotidien"
    case Hebdomadaire => "hebdomadaire"
    case Mensuel => "mensuel"
    case Global => "global"
  }

  function TypeDepuisTexte(s: string): (r: Option<TypeClassement>)
    ensures r.Some? ==> TypeTexte(r.valeur) == s
    ensures forall t: TypeClassement :: TypeTexte(t) == s ==> r == Some(t)
  {
    if s == "quotidien" then Some(Quotidien)
    else if s == "hebdomadaire" then Some(Hebdomadaire)
    else if s == "mensuel" then Some(Mensuel)
    else if s == "global" then Some(Global)
    else None
  }

  /** Outcome of one answer attempt. */
  datatype Statut = Correct | Incorrect | Timeout

  function StatutTexte(s: Statut): string
  {
    match s
    case Correct => "correct"
    case Incorrect => "incorrect"
    case Timeout => "timeout"
  }

  function StatutDepuisTexte(s: string): (r: Option<Statut>)
    ensures r.Some? ==> StatutTexte(r.valeur) == s
    ensures forall st: Statut :: StatutTexte(st) == s ==> r == Some(st)
  {
    if s == "correct" then Some(Correct)
    else if s == "incorrect" then Some(Incorrect)
    else if s == "timeout" then Some(Timeout)
    else None
  }

  /** One player's attempt at one tier; `reponse` is None when nothing was chosen. */
  datatype Participation = Participation(reponse: Option<string>, statut: Statut, reponduLe: string)

  /** A question as every provider returns it. */
  datatype QuestionTrivia = QuestionTrivia(
    id: string,
    question: string,
    propositions: seq<string>,
    reponse: string,
    categorie: string,
    difficulte: Niveau)

  /** Reserved guild key under which flat participation data from old snapshots is kept. */
  const CleGuildeLegacy: string := "__legacy__"
}
