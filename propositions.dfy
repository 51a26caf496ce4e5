/** The answer choices shown for a question, as both providers build them. */
module Propositions {
  import opened Texte

  /**
   * The correct answer followed by the wrong ones, each text kept once, in
   * the order of its first occurrence.
   */
  function GenererPropositions(reponse: string, mauvaises: seq<string>): (r: seq<string>)
    ensures |r| >= 1 && r[0] == reponse
    ensures SansDoublon(r)
    ensures forall x :: x in r <==> x == reponse || x in mauvaises
    ensures forall i, j :: 0 <= i < j < |r| ==>
              PremiereOccurrence([reponse] + mauvaises, r[i]) < PremiereOccurrence([reponse] + mauvaises, r[j])
    ensures SansDoublon([reponse] + mauvaises) ==> r == [reponse] + mauvaises
  {
    var tous := [reponse] + mauvaises;
    DedupliquerPremier(tous);
    DedupliquerSansDoublon(tous);
    DedupliquerElements(tous);
    DedupliquerOrdre(tous);
    DedupliquerIdentite(tous);
    Dedupliquer(tous)
  }
}
