/**
 * The OpenTDB question client: a cache of the day's answers per request,
 * at most three successful network fetches a day, and a minimum delay
 * between two requests. The HTTP call, base64 decoding, translation and
 * the SHA-1 identifier are parameters.
 */
module OpenTdb {
  import opened Commun
  import opened Texte
  import opened Propositions

  /** The optional search parameters of `recupererQuestions`. */
  datatype ParametresRecherche = ParametresRecherche(difficulte: Option<Niveau>, categorie: Option<string>, limite: Option<int>)

  /** The cache key: the day plus the parameters with their defaults filled in. */
  datatype CleCache = CleCache(jour: string, difficulte: string, categorie: string, limite: int)

  datatype EntreeCache = EntreeCache(jour: string, questions: seq<QuestionTrivia>)

  /** One result as OpenTDB sends it: text fields still encoded, difficulty as is. */
  datatype QuestionDto = QuestionDto(
    categorie: string,
    difficulte: string,
    question: string,
    bonneReponse: string,
    mauvaisesReponses: seq<string>)

  /** The query string sent to `/api.php` (type and encoding are fixed). */
  datatype RequeteApi = RequeteApi(quantite: int, difficulte: Option<string>, categorie: Option<int>)

  /** What the HTTP call produced: a transport error (with its status, if any) or a body. */
  datatype ReponseApi =
    | ErreurHttp(statut: Option<int>, message: string)
    | Corps(codeReponse: int, resultats: seq<QuestionDto>)

  const DelaiMinimalParDefaut: int := 5500
  const QuotaQuotidien: nat := 3
  const MessageQuotaAtteint: string := "Limite quotidienne de 3 appels OpenTDB atteinte, réessayez demain."
  const MessageLimiteDebit: string := "Limite de débit OpenTDB atteinte, réessayez dans quelques secondes."

  // ---------------------------------------------------------------------------
  // mapping helpers

  function NormaliserDifficulte(d: string): (n: Niveau)
    ensures n == Facile <==> d == "easy"
    ensures n == Difficile <==> d == "hard"
  {
    if d == "easy" then Facile else if d == "hard" then Difficile else Moyen
  }

  function MapperDifficultePourApi(d: Option<Niveau>): (r: Option<string>)
    ensures r.None? <==> d.None?
    ensures r.Some? ==> r.valeur in {"easy", "medium", "hard"}
  {
    match d
    case None => None
    case Some(Facile) => Some("easy")
    case Some(Difficile) => Some("hard")
    case Some(Moyen) => Some("medium")
  }

  /** Mapping a tier to the API and reading it back gives the same tier. */
  lemma DifficulteAllerRetour(n: Niveau)
    ensures NormaliserDifficulte(MapperDifficultePourApi(Some(n)).valeur) == n
  {
  }

  /** A category is sent only when it is non-empty and starts like an integer. */
  function MapperCategoriePourApi(categorie: Option<string>): (r: Option<int>)
    ensures categorie.None? || categorie == Some("") ==> r.None?
    ensures categorie.Some? && categorie.valeur != "" ==> r == ParseInt(categorie.valeur)
  {
    if categorie.None? || categorie.valeur == "" then None else ParseInt(categorie.valeur)
  }

  /** A numeric category id round-trips. */
  lemma CategorieNumerique(n: nat)
    ensures MapperCategoriePourApi(Some(NatToString(n))) == Some(n)
  {
    ParseIntNatToString(n);
  }

  function DecrireCodeErreur(code: int): (m: string)
    ensures code == 5 ==> m == "Limite de débit OpenTDB atteinte, réessayez plus tard."
  {
    if code == 1 then "Aucun résultat disponible pour la requête OpenTDB."
    else if code == 2 then "Paramètres invalides pour la requête OpenTDB."
    else if code == 3 then "Jeton de session OpenTDB introuvable."
    else if code == 4 then "Jeton de session OpenTDB épuisé, réinitialisation nécessaire."
    else if code == 5 then "Limite de débit OpenTDB atteinte, réessayez plus tard."
    else "Réponse inattendue d’OpenTDB (code " + IntToString(code) + ")."
  }

  /** The message of the error a failed fetch rethrows (HTTP 429 gets its own message). */
  function MessageErreur(rep: ReponseApi): (m: string)
    requires !(rep.Corps? && rep.codeReponse == 0)
    ensures rep.ErreurHttp? && rep.statut == Some(429) ==> m == MessageLimiteDebit
    ensures rep.ErreurHttp? && rep.statut != Some(429) ==> m == rep.message
    ensures rep.Corps? ==> m == DecrireCodeErreur(rep.codeReponse)
  {
    match rep
    case ErreurHttp(statut, message) => if statut == Some(429) then MessageLimiteDebit else message
    case Corps(code, _) => DecrireCodeErreur(code)
  }

  /** `construireCleCache`: the day plus the three parameters, each missing one replaced by its default. */
  function CleCacheDe(jour: string, p: ParametresRecherche): (k: CleCache)
    ensures k.jour == jour
  {
    CleCache(jour,
             if p.difficulte.Some? then NiveauTexte(p.difficulte.valeur) else "toutes",
             p.categorie.GetOr("toutes"),
             p.limite.GetOr(1))
  }

  /** Each parameter of the key is the one given, or its default: "toutes", "toutes" and 1. */
  lemma CleCacheDefauts(jour: string, p: ParametresRecherche)
    ensures var k := CleCacheDe(jour, p);
            && (p.difficulte.None? ==> k.difficulte == "toutes")
            && (p.difficulte.Some? ==> k.difficulte == NiveauTexte(p.difficulte.valeur))
            && k.categorie == p.categorie.GetOr("toutes")
            && k.limite == p.limite.GetOr(1)
  {
  }

  /**
   * Two searches share a cache entry exactly when they are on the same day,
   * ask for the same tier and agree on the category and count once the
   * defaults are filled in.
   */
  lemma CleCacheMemeRecherche(j1: string, p1: ParametresRecherche, j2: string, p2: ParametresRecherche)
    ensures CleCacheDe(j1, p1) == CleCacheDe(j2, p2) <==>
              j1 == j2 && p1.difficulte == p2.difficulte &&
              p1.categorie.GetOr("toutes") == p2.categorie.GetOr("toutes") &&
              p1.limite.GetOr(1) == p2.limite.GetOr(1)
  {
    var k1, k2 := CleCacheDe(j1, p1), CleCacheDe(j2, p2);
    if k1 == k2 {
      if p1.difficulte.Some? {
        assert NiveauDepuisTexte(k1.difficulte) == p1.difficulte;
      }
      if p2.difficulte.Some? {
        assert NiveauDepuisTexte(k2.difficulte) == p2.difficulte;
      }
    }
  }

  function RequeteDe(p: ParametresRecherche): (q: RequeteApi)
    ensures q.quantite == p.limite.GetOr(1)
    ensures q.difficulte == MapperDifficultePourApi(p.difficulte)
    ensures q.categorie == MapperCategoriePourApi(p.categorie)
  {
    RequeteApi(p.limite.GetOr(1), MapperDifficultePourApi(p.difficulte), MapperCategoriePourApi(p.categorie))
  }

  // ---------------------------------------------------------------------------
  // formatting one result

  /** `traductions[i] ?? original`. */
  function TraductionOu(traductions: seq<string>, i: int, original: string): string
  {
    if 0 <= i < |traductions| then traductions[i] else original
  }

  /** The texts sent to the translator, in order: question, answer, wrong answers, category. */
  function TextesATraduire(dto: QuestionDto, decoder: string -> string): (t: seq<string>)
    ensures |t| == |dto.mauvaisesReponses| + 3
    ensures t[0] == decoder(dto.question) && t[1] == decoder(dto.bonneReponse) && t[|t| - 1] == decoder(dto.categorie)
    ensures forall i :: 0 <= i < |dto.mauvaisesReponses| ==> t[2 + i] == decoder(dto.mauvaisesReponses[i])
  {
    [decoder(dto.question), decoder(dto.bonneReponse)]
    + seq(|dto.mauvaisesReponses|, j requires 0 <= j < |dto.mauvaisesReponses| => decoder(dto.mauvaisesReponses[j]))
    + [decoder(dto.categorie)]
  }

  /** The translations, or none at all when the translator fails. */
  function Traductions(dto: QuestionDto, decoder: string -> string, traduire: seq<string> -> Option<seq<string>>): seq<string>
  {
    traduire(TextesATraduire(dto, decoder)).GetOr([])
  }

  /** Each wrong answer's translation, or its decoded text when the translation is missing. */
  function MauvaisesTraduites(dto: QuestionDto, t: seq<string>, decoder: string -> string): (r: seq<string>)
    ensures |r| == |dto.mauvaisesReponses|
    ensures |t| <= 2 ==> forall i :: 0 <= i < |r| ==> r[i] == decoder(dto.mauvaisesReponses[i])
    ensures |t| >= |dto.mauvaisesReponses| + 2 ==> r == t[2..|dto.mauvaisesReponses| + 2]
  {
    seq(|dto.mauvaisesReponses|, i requires 0 <= i < |dto.mauvaisesReponses| => TraductionOu(t, 2 + i, decoder(dto.mauvaisesReponses[i])))
  }

  /**
   * `formaterQuestion`: each missing translation (all of them, when the
   * translator fails) falls back to the decoded text; the choices are the
   * answer and the wrong answers as translated.
   */
  function FormaterQuestion(dto: QuestionDto, index: int, decoder: string -> string,
                            traduire: seq<string> -> Option<seq<string>>,
                            identifiant: (string, string, int) -> string): (q: QuestionTrivia)
    ensures q.id == identifiant(dto.question, dto.bonneReponse, index)
    ensures q.difficulte == NormaliserDifficulte(dto.difficulte)
    ensures q.propositions == GenererPropositions(q.reponse, MauvaisesTraduites(dto, Traductions(dto, decoder, traduire), decoder))
    ensures Traductions(dto, decoder, traduire) == [] ==>
              q.question == decoder(dto.question) && q.reponse == decoder(dto.bonneReponse) && q.categorie == decoder(dto.categorie)
    ensures var t := Traductions(dto, decoder, traduire);
            |t| == |dto.mauvaisesReponses| + 3 ==>
              q.question == t[0] && q.reponse == t[1] && q.categorie == t[2 + |dto.mauvaisesReponses|]
  {
    var traductions := Traductions(dto, decoder, traduire);
    var reponse := TraductionOu(traductions, 1, decoder(dto.bonneReponse));
    QuestionTrivia(
      identifiant(dto.question, dto.bonneReponse, index),
      TraductionOu(traductions, 0, decoder(dto.question)),
      GenererPropositions(reponse, MauvaisesTraduites(dto, traductions, decoder)),
      reponse,
      TraductionOu(traductions, 2 + |dto.mauvaisesReponses|, decoder(dto.categorie)),
      NormaliserDifficulte(dto.difficulte))
  }

  function FormaterQuestions(resultats: seq<QuestionDto>, decoder: string -> string,
                             traduire: seq<string> -> Option<seq<string>>,
                             identifiant: (string, string, int) -> string): (r: seq<QuestionTrivia>)
    ensures |r| == |resultats|
    ensures forall i :: 0 <= i < |r| ==> r[i] == FormaterQuestion(resultats[i], i, decoder, traduire, identifiant)
  {
    seq(|resultats|, i requires 0 <= i < |resultats| => FormaterQuestion(resultats[i], i, decoder, traduire, identifiant))
  }

  // ---------------------------------------------------------------------------
  // the client

  /** The cache after a day change: only that day's entries stay. */
  function CacheDuJour(cache: map<CleCache, EntreeCache>, jour: string): (r: map<CleCache, EntreeCache>)
    ensures forall k :: k in r <==> k in cache && cache[k].jour == jour
    ensures forall k :: k in r ==> r[k] == cache[k]
  {
    map k | k in cache && cache[k].jour == jour :: cache[k]
  }

  class ClientOpenTdb {
    var cache: map<CleCache, EntreeCache>
    /** The day the counter refers to, and the successful fetches made that day. */
    var jourCompteur: string
    var appels: nat
    /** Instant of the last request that reached the network; 0 before any. */
    var derniereRequete: int
    const delaiMinimalMs: int

    /**
     * Each successful fetch of the counted day left exactly one cache entry,
     * so the cache holds that day's answers only and at most three of them.
     */
    ghost predicate Valid()
      reads this
    {
      delaiMinimalMs >= 0 && appels == |cache| && appels <= QuotaQuotidien &&
      forall k :: k in cache ==> k.jour == jourCompteur && cache[k].jour == jourCompteur
    }

    /** A missing delay means 5500 ms; a negative one means none. */
    constructor(delai: Option<int>)
      ensures Valid()
      ensures delaiMinimalMs == if delai.GetOr(DelaiMinimalParDefaut) > 0 then delai.GetOr(DelaiMinimalParDefaut) else 0
      ensures cache == map[] && jourCompteur == "" && appels == 0 && derniereRequete == 0
    {
      var d := delai.GetOr(DelaiMinimalParDefaut);
      delaiMinimalMs := if d > 0 then d else 0;
      cache := map[];
      jourCompteur := "";
      appels := 0;
      derniereRequete := 0;
    }

    /**
     * `attendreFenetreRateLimit`: the wait before a request at `maintenant`,
     * None when there is none (no delay configured, first request, or the
     * delay already elapsed).
     */
    function AttenteRateLimit(maintenant: int): (r: Option<int>)
      reads this
      ensures r.None? <==> delaiMinimalMs == 0 || derniereRequete == 0 || maintenant - derniereRequete >= delaiMinimalMs
      ensures r.Some? ==> r.valeur > 0 && maintenant + r.valeur == derniereRequete + delaiMinimalMs
      ensures r.Some? && maintenant >= derniereRequete ==> r.valeur <= delaiMinimalMs
    {
      if delaiMinimalMs == 0 || derniereRequete == 0 then None
      else
        var attente := delaiMinimalMs - (maintenant - derniereRequete);
        if attente > 0 then Some(attente) else None
    }

    /** `purgerCacheAncien`: drops every entry of another day. */
    method PurgerCacheAncien(jour: string)
      modifies this
      ensures cache == CacheDuJour(old(cache), jour)
      ensures jourCompteur == old(jourCompteur) && appels == old(appels) && derniereRequete == old(derniereRequete)
    {
      var restants := cache.Keys;
      while restants != {}
        invariant restants <= old(cache).Keys
        invariant jourCompteur == old(jourCompteur) && appels == old(appels) && derniereRequete == old(derniereRequete)
        invariant forall k :: k in cache <==> k in old(cache) && (k in restants || old(cache)[k].jour == jour)
        invariant forall k :: k in cache ==> cache[k] == old(cache)[k]
        decreases restants
      {
        var k :| k in restants;
        if cache[k].jour != jour {
          cache := cache - {k};
        }
        restants := restants - {k};
      }
    }

    /** `reinitialiserQuotaSiNecessaire`: a new day zeroes the counter and purges the cache. */
    method ReinitialiserQuotaSiNecessaire(jour: string)
      requires Valid()
      modifies this
      ensures Valid()
      ensures jourCompteur == jour && derniereRequete == old(derniereRequete)
      ensures old(jourCompteur) == jour ==> cache == old(cache) && appels == old(appels)
      ensures old(jourCompteur) != jour ==> cache == CacheDuJour(old(cache), jour) && appels == 0
      ensures old(jourCompteur) != jour ==> cache == map[]
    {
      if jourCompteur != jour {
        jourCompteur := jour;
        appels := 0;
        PurgerCacheAncien(jour);
        assert cache == map[];
      }
    }

    /**
     * `recupererQuestions` for the day `jour`: a cached answer is returned
     * as is; a miss beyond the quota fails; otherwise the client waits out
     * the rate-limit window, calls the API and caches and counts the result
     * only when it succeeds. `debut` and `fin` are the clock before the wait
     * and when the request settles.
     */
    method RecupererQuestions(p: ParametresRecherche, jour: string, debut: int, fin: int,
                              api: RequeteApi -> ReponseApi, decoder: string -> string,
                              traduire: seq<string> -> Option<seq<string>>,
                              identifiant: (string, string, int) -> string)
      returns (r: Resultat<seq<QuestionTrivia>>, attente: Option<int>)
      requires Valid()
      modifies this
      ensures Valid()
      ensures jourCompteur == jour
      ensures var cle := CleCacheDe(jour, p);
              var c0 := if old(jourCompteur) == jour then old(cache) else map[];
              var n0 := if old(jourCompteur) == jour then old(appels) else 0;
              if cle in c0 then
                r == Ok(c0[cle].questions) && attente == None &&
                cache == c0 && appels == n0 && derniereRequete == old(derniereRequete)
              else if n0 >= QuotaQuotidien then
                r == Erreur(MessageQuotaAtteint) && attente == None &&
                cache == c0 && appels == n0 && derniereRequete == old(derniereRequete)
              else
                var rep := api(RequeteDe(p));
                attente == old(AttenteRateLimit(debut)) && derniereRequete == fin &&
                if rep.Corps? && rep.codeReponse == 0 then
                  var questions := FormaterQuestions(rep.resultats, decoder, traduire, identifiant);
                  r == Ok(questions) && appels == n0 + 1 && cache == c0[cle := EntreeCache(jour, questions)]
                else
                  r == Erreur(MessageErreur(rep)) && appels == n0 && cache == c0
    {
      ReinitialiserQuotaSiNecessaire(jour);
      var cle := CleCacheDe(jour, p);
      if cle in cache {
        return Ok(cache[cle].questions), None;
      }
      if appels >= QuotaQuotidien {
        return Erreur(MessageQuotaAtteint), None;
      }
      attente := AttenteRateLimit(debut);
      var rep := api(RequeteDe(p));
      if rep.Corps? && rep.codeReponse == 0 {
        var questions := FormaterQuestions(rep.resultats, decoder, traduire, identifiant);
        appels := appels + 1;
        cache := cache[cle := EntreeCache(jour, questions)];
        r := Ok(questions);
      } else {
        r := Erreur(MessageErreur(rep));
      }
      derniereRequete := fin;
    }
  }

  /** Three different successful fetches on one day exhaust the quota for any fourth request. */
  method ExempleQuota(api: RequeteApi -> ReponseApi, decoder: string -> string,
                      traduire: seq<string> -> Option<seq<string>>, identifiant: (string, string, int) -> string)
    requires forall q :: api(q) == Corps(0, [])
  {
    var client := new ClientOpenTdb(Some(0));
    var jour := "2024-05-01";
    var r1, _ := client.RecupererQuestions(ParametresRecherche(Some(Facile), None, Some(1)), jour, 1, 1, api, decoder, traduire, identifiant);
    assert client.appels == 1;
    var r2, _ := client.RecupererQuestions(ParametresRecherche(Some(Moyen), None, Some(1)), jour, 2, 2, api, decoder, traduire, identifiant);
    assert client.appels == 2;
    var r3, _ := client.RecupererQuestions(ParametresRecherche(Some(Difficile), None, Some(1)), jour, 3, 3, api, decoder, traduire, identifiant);
    assert client.appels == 3;
    var r4, _ := client.RecupererQuestions(ParametresRecherche(Some(Facile), Some("18"), Some(1)), jour, 4, 4, api, decoder, traduire, identifiant);
    assert r4 == Erreur(MessageQuotaAtteint);
  }

  /** A repeated request on the same day is answered from the cache, without using the quota. */
  method ExempleCache(api: RequeteApi -> ReponseApi, decoder: string -> string,
                      traduire: seq<string> -> Option<seq<string>>, identifiant: (string, string, int) -> string)
    requires forall q :: api(q).Corps? && api(q).codeReponse == 0
  {
    var client := new ClientOpenTdb(None);
    var p := ParametresRecherche(Some(Moyen), None, Some(1));
    var r1, _ := client.RecupererQuestions(p, "2024-05-01", 1, 1, api, decoder, traduire, identifiant);
    assert client.appels == 1;
    var r2, a2 := client.RecupererQuestions(p, "2024-05-01", 2, 2, api, decoder, traduire, identifiant);
    assert r2 == r1 && a2 == None && client.appels == 1 && client.derniereRequete == 1;
  }

  /** With a delay of 1000 ms, the first request does not wait and the next one waits out the rest. */
  method ExempleDelai(api: RequeteApi -> ReponseApi, decoder: string -> string,
                      traduire: seq<string> -> Option<seq<string>>, identifiant: (string, string, int) -> string)
    requires forall q :: api(q) == Corps(0, [])
  {
    var client := new ClientOpenTdb(Some(1000));
    var jour := "2024-05-01";
    var p1 := ParametresRecherche(Some(Facile), None, Some(1));
    var p2 := ParametresRecherche(Some(Moyen), None, Some(1));
    assert NiveauTexte(Facile)[0] != NiveauTexte(Moyen)[0];
    assert CleCacheDe(jour, p1) != CleCacheDe(jour, p2);
    var _, a1 := client.RecupererQuestions(p1, jour, 100, 150, api, decoder, traduire, identifiant);
    assert a1 == None;
    assert client.derniereRequete == 150 && client.cache.Keys == {CleCacheDe(jour, p1)};
    var _, a2 := client.RecupererQuestions(p2, jour, 400, 450, api, decoder, traduire, identifiant);
    assert a2 == Some(750);
  }
}
