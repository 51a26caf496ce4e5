/**
 * Time-decay scoring of a correct answer: the tier's base points times a
 * factor that falls linearly over a day and never drops below 0.2.
 * Instants are integer milliseconds; real arithmetic is exact.
 */
module Scoring {
  import opened Commun

  const FacteurMinimum: real := 0.2
  const SecondesParJour: nat := 86400

  /** Elapsed seconds from which the factor stays at its minimum (0.8 of a day). */
  const SecondesPlancher: nat := 69120

  datatype ResultatScore = ResultatScore(points: int, facteurTemps: real, secondesDepuisAnnonce: nat)

  /** Points a tier is worth when answered at once. */
  function BasePoints(n: Niveau): (b: nat)
    ensures n == Facile ==> b == 50
    ensures n == Moyen ==> b == 100
    ensures n == Difficile ==> b == 150
  {
    match n
    case Facile => 50
    case Moyen => 100
    case Difficile => 150
  }

  /** `Math.round` on a finite value: the nearest integer, halves rounded up. */
  function Round(x: real): (r: int)
    ensures x - 0.5 < r as real <= x + 0.5
  {
    (x + 0.5).Floor
  }

  /** Whole seconds between two instants, truncated toward zero. */
  function DiffSecondes(annonceMs: int, reponseMs: int): int
  {
    var d := reponseMs - annonceMs;
    if d >= 0 then d / 1000 else -((-d) / 1000)
  }

  /** The time factor after that many whole seconds: linear over the day, floored at 0.2. */
  function Facteur(secondes: nat): (f: real)
    ensures FacteurMinimum <= f <= 1.0
    ensures secondes == 0 ==> f == 1.0
    ensures secondes >= SecondesPlancher ==> f == FacteurMinimum
    ensures secondes <= SecondesPlancher ==> f * SecondesParJour as real == (SecondesParJour - secondes) as real
  {
    var lineaire := 1.0 - secondes as real / SecondesParJour as real;
    if lineaire < FacteurMinimum then FacteurMinimum else lineaire
  }

  function CalculerPoints(niveau: Niveau, annonceMs: int, reponseMs: int): (r: ResultatScore)
    ensures var ecoule := if reponseMs < annonceMs then 0 else reponseMs - annonceMs;
            r.secondesDepuisAnnonce * 1000 <= ecoule < (r.secondesDepuisAnnonce + 1) * 1000
    ensures FacteurMinimum <= r.facteurTemps <= 1.0
    ensures Round(FacteurMinimum * BasePoints(niveau) as real) <= r.points <= BasePoints(niveau)
    ensures var lineaire := 1.0 - r.secondesDepuisAnnonce as real / 86400.0;
            r.facteurTemps == (if lineaire < 0.2 then 0.2 else lineaire)
    ensures r.points == Round(BasePoints(niveau) as real * r.facteurTemps)
  {
    var base := BasePoints(niveau);
    var diff := DiffSecondes(annonceMs, reponseMs);
    var secondes: nat := if diff < 0 then 0 else diff;
    ResultatScore(PointsApres(niveau, secondes), Facteur(secondes), secondes)
  }

  /** Points of a correct answer given that many whole seconds after the announcement. */
  function PointsApres(niveau: Niveau, secondes: nat): (p: int)
    ensures Round(FacteurMinimum * BasePoints(niveau) as real) <= p <= BasePoints(niveau)
    ensures secondes == 0 ==> p == BasePoints(niveau)
    ensures secondes >= SecondesPlancher ==> p == Round(FacteurMinimum * BasePoints(niveau) as real)
  {
    Round(BasePoints(niveau) as real * Facteur(secondes))
  }

  /** An answer at or before the announcement earns the whole base. */
  lemma AvantAnnoncePointsComplets(niveau: Niveau, annonceMs: int, reponseMs: int)
    requires reponseMs <= annonceMs
    ensures CalculerPoints(niveau, annonceMs, reponseMs) == ResultatScore(BasePoints(niveau), 1.0, 0)
  {
  }

  lemma {:induction false} DiffSecondesCroissante(a: int, r1: int, r2: int)
    requires r1 <= r2
    ensures DiffSecondes(a, r1) <= DiffSecondes(a, r2)
  {
    var d1, d2 := r1 - a, r2 - a;
    if d1 >= 0 {
      DivCroissante(d1, d2);
    } else if d2 < 0 {
      DivCroissante(-d2, -d1);
    }
  }

  lemma {:induction false} DivCroissante(x: nat, y: nat)
    requires x <= y
    ensures x / 1000 <= y / 1000
  {
  }

  lemma FacteurDecroissant(s1: nat, s2: nat)
    requires s1 <= s2
    ensures Facteur(s2) <= Facteur(s1)
  {
    assert s1 as real / SecondesParJour as real <= s2 as real / SecondesParJour as real;
  }

  lemma ProduitCroissant(b: real, f1: real, f2: real)
    requires 0.0 <= b && f2 <= f1
    ensures b * f2 <= b * f1
  {
  }

  lemma RoundCroissant(x: real, y: real)
    requires x <= y
    ensures Round(x) <= Round(y)
  {
  }

  lemma PointsApresDecroissants(niveau: Niveau, s1: nat, s2: nat)
    requires s1 <= s2
    ensures PointsApres(niveau, s2) <= PointsApres(niveau, s1)
  {
    FacteurDecroissant(s1, s2);
    var b := BasePoints(niveau) as real;
    ProduitCroissant(b, Facteur(s1), Facteur(s2));
    RoundCroissant(b * Facteur(s2), b * Facteur(s1));
  }

  /** Answering later never earns more. */
  lemma PointsDecroissants(niveau: Niveau, annonceMs: int, r1: int, r2: int)
    requires r1 <= r2
    ensures CalculerPoints(niveau, annonceMs, r2).points <= CalculerPoints(niveau, annonceMs, r1).points
  {
    DiffSecondesCroissante(annonceMs, r1, r2);
    var p1, p2 := CalculerPoints(niveau, annonceMs, r1), CalculerPoints(niveau, annonceMs, r2);
    PointsApresDecroissants(niveau, p1.secondesDepuisAnnonce, p2.secondesDepuisAnnonce);
  }

  /** From 0.8 of a day after the announcement, the factor is exactly the minimum. */
  lemma PlancherAtteint(niveau: Niveau, annonceMs: int, reponseMs: int)
    requires reponseMs - annonceMs >= SecondesPlancher * 1000
    ensures CalculerPoints(niveau, annonceMs, reponseMs).facteurTemps == FacteurMinimum
    ensures CalculerPoints(niveau, annonceMs, reponseMs).points == Round(FacteurMinimum * BasePoints(niveau) as real)
  {
    var r := CalculerPoints(niveau, annonceMs, reponseMs);
    assert r.secondesDepuisAnnonce >= SecondesPlancher;
  }

  /** An easy answer ten seconds after a 09:00:00 announcement earns 50. */
  lemma ExempleDixSecondes()
    ensures CalculerPoints(Facile, 32400000, 32410000).points == 50
  {
    var r := CalculerPoints(Facile, 32400000, 32410000);
    assert r.secondesDepuisAnnonce == 10;
    assert r.facteurTemps == 1.0 - 10.0 / 86400.0;
  }
}
