/**
 * The maintenance script that clears the bot's guild-scoped slash commands
 * in every guild listed in the environment.
 */
module NettoyageCommandes {
  import opened Commun
  import opened Texte

  /** A character of the separator class `[,\s]`. */
  predicate EstSeparateur(ch: char)
  {
    ch == ',' || EstEspace(ch)
  }

  predicate SansSeparateur(morceau: string)
  {
    forall j :: 0 <= j < |morceau| ==> !EstSeparateur(morceau[j])
  }

  /** A usable id: non-empty, with no white space at either end. */
  predicate IdPropre(id: string)
  {
    id != "" && SansEspaceAuxBords(id)
  }

  /** A usable id is its own trim. */
  lemma IdPropreTrim(id: string)
    requires IdPropre(id)
    ensures Trim(id) == id
  {
    TrimIdentite(id);
  }

  /**
   * The pieces between separator characters. `split(/[,\s]+/)` treats a run
   * of separators as one; the two differ only by empty pieces, which the
   * script skips.
   */
  function Decouper(s: string): (r: seq<string>)
    ensures |r| >= 1
    ensures forall i :: 0 <= i < |r| ==> SansSeparateur(r[i])
  {
    if s == [] then [""]
    else
      var reste := Decouper(s[1..]);
      if EstSeparateur(s[0]) then [""] + reste
      else [[s[0]] + reste[0]] + reste[1..]
  }

  /** `id.trim()` when that is non-empty. */
  function Nettoyer(morceau: string): (r: Option<string>)
    ensures r.Some? <==> Trim(morceau) != ""
    ensures r.Some? ==> r.valeur == Trim(morceau) && IdPropre(r.valeur)
  {
    if Trim(morceau) == "" then None
    else
      TrimBords(morceau);
      Some(Trim(morceau))
  }

  /** The trimmed non-empty pieces, in order. */
  function Candidats(morceaux: seq<string>): (r: seq<string>)
    ensures forall i :: 0 <= i < |r| ==> IdPropre(r[i])
  {
    if morceaux == [] then []
    else
      var id := Nettoyer(morceaux[|morceaux| - 1]);
      var debut := Candidats(morceaux[..|morceaux| - 1]);
      var fin := if id.Some? then [id.valeur] else [];
      assert forall i :: 0 <= i < |fin| ==> IdPropre(fin[i]);
      debut + fin
  }

  /** The ids one variable lists. */
  function IdsDe(variable: Option<string>): seq<string>
  {
    Candidats(Decouper(variable.GetOr("")))
  }

  /** `process.env[nom]`. */
  function Lire(env: map<string, string>, nom: string): Option<string>
  {
    if nom in env then Some(env[nom]) else None
  }

  /** The ids of DISCORD_GUILD_ID, then those of EXTRA_GUILD_IDS, each kept at its first occurrence. */
  function GuildIdsAttendus(principal: Option<string>, supplementaires: Option<string>): seq<string>
  {
    Dedupliquer(IdsDe(principal) + IdsDe(supplementaires))
  }

  /** The insertion-ordered set `ids` after adding `id` when it is non-empty once trimmed. */
  method Ajouter(ids: seq<string>, id: string) returns (r: seq<string>)
    ensures var propre := Nettoyer(id);
            r == if propre.Some? && propre.valeur !in ids then ids + [propre.valeur] else ids
  {
    r := ids;
    var propre := Trim(id);
    if |propre| > 0 && propre !in r {
      r := r + [propre];
    }
  }

  lemma CandidatsEtape(morceaux: seq<string>, i: nat)
    requires i < |morceaux|
    ensures var id := Nettoyer(morceaux[i]);
            Candidats(morceaux[..i + 1]) == Candidats(morceaux[..i]) + (if id.Some? then [id.valeur] else [])
  {
    assert morceaux[..i + 1][..i] == morceaux[..i];
  }

  lemma ConcatAssociative(a: seq<string>, b: seq<string>, c: seq<string>)
    ensures (a + b) + c == a + (b + c)
  {
  }

  /** Adding one more element to a de-duplicated sequence. */
  lemma DedupliquerEtape(avant: seq<string>, x: string)
    ensures Dedupliquer(avant + [x]) == Dedupliquer(avant) + (if x in Dedupliquer(avant) then [] else [x])
  {
    DedupliquerElements(avant);
    assert (avant + [x])[..|avant|] == avant;
  }

  /** Adding an optional id to the list keeps the deduplicated list in step with `Ajouter`. */
  lemma AjoutDedupliquer(traites: seq<string>, id: Option<string>)
    ensures var ajout := if id.Some? then [id.valeur] else [];
            Dedupliquer(traites + ajout)
              == if id.Some? && id.valeur !in Dedupliquer(traites) then Dedupliquer(traites) + [id.valeur] else Dedupliquer(traites)
  {
    if id.Some? {
      DedupliquerEtape(traites, id.valeur);
    } else {
      assert traites + [] == traites;
    }
  }

  /** One `for` loop of the script: adds every piece, keeping `ids == Dedupliquer(deja + Candidats(morceaux))`. */
  method AjouterTous(ids: seq<string>, ghost deja: seq<string>, morceaux: seq<string>) returns (r: seq<string>)
    requires ids == Dedupliquer(deja)
    ensures r == Dedupliquer(deja + Candidats(morceaux))
  {
    r := ids;
    ghost var traites := deja;
    var i := 0;
    assert Candidats(morceaux[..0]) == [];
    while i < |morceaux|
      invariant 0 <= i <= |morceaux|
      invariant traites == deja + Candidats(morceaux[..i])
      invariant r == Dedupliquer(traites)
    {
      ghost var id := Nettoyer(morceaux[i]);
      ghost var ajout := if id.Some? then [id.valeur] else [];
      CandidatsEtape(morceaux, i);
      AjoutDedupliquer(traites, id);
      ConcatAssociative(deja, Candidats(morceaux[..i]), ajout);
      r := Ajouter(r, morceaux[i]);
      traites := traites + ajout;
      i := i + 1;
    }
    assert morceaux[..i] == morceaux;
  }

  /** `extraireGuildIds`: the ids of DISCORD_GUILD_ID, then those of EXTRA_GUILD_IDS, each once. */
  method ExtraireGuildIds(principal: Option<string>, supplementaires: Option<string>) returns (ids: seq<string>)
    ensures ids == GuildIdsAttendus(principal, supplementaires)
  {
    var vide: seq<string> := [];
    assert Dedupliquer(vide) == [];
    ids := AjouterTous([], vide, Decouper(principal.GetOr("")));
    assert vide + IdsDe(principal) == IdsDe(principal);
    ids := AjouterTous(ids, IdsDe(principal), Decouper(supplementaires.GetOr("")));
  }

  lemma DedupliquerPropres(a: seq<string>, b: seq<string>)
    requires forall i :: 0 <= i < |a| ==> IdPropre(a[i])
    requires forall i :: 0 <= i < |b| ==> IdPropre(b[i])
    ensures forall i :: 0 <= i < |Dedupliquer(a + b)| ==> IdPropre(Dedupliquer(a + b)[i])
  {
    var tous := a + b;
    assert forall x :: x in tous ==> IdPropre(x);
    DedupliquerElements(tous);
    var ids := Dedupliquer(tous);
    forall i | 0 <= i < |ids| ensures IdPropre(ids[i]) {
      assert ids[i] in tous;
    }
  }

  /** Every extracted id is non-empty and trimmed. */
  lemma GuildIdsPropres(principal: Option<string>, supplementaires: Option<string>)
    ensures var ids := GuildIdsAttendus(principal, supplementaires);
            forall i :: 0 <= i < |ids| ==> IdPropre(ids[i])
  {
    DedupliquerPropres(IdsDe(principal), IdsDe(supplementaires));
  }

  lemma DedupliquerDeuxListes(a: seq<string>, b: seq<string>)
    ensures SansDoublon(Dedupliquer(a + b))
    ensures forall x :: x in Dedupliquer(a + b) <==> x in a || x in b
    ensures |Dedupliquer(a)| <= |Dedupliquer(a + b)| && Dedupliquer(a + b)[..|Dedupliquer(a)|] == Dedupliquer(a)
  {
    DedupliquerSansDoublon(a + b);
    DedupliquerElements(a + b);
    DedupliquerConcat(a, b);
  }

  /** The ids are distinct, exactly those listed, and the principal ones come first. */
  lemma GuildIdsOrdonnes(principal: Option<string>, supplementaires: Option<string>)
    ensures var ids := GuildIdsAttendus(principal, supplementaires);
            && SansDoublon(ids)
            && (forall x :: x in ids <==> x in IdsDe(principal) || x in IdsDe(supplementaires))
            && |Dedupliquer(IdsDe(principal))| <= |ids|
            && ids[..|Dedupliquer(IdsDe(principal))|] == Dedupliquer(IdsDe(principal))
  {
    DedupliquerDeuxListes(IdsDe(principal), IdsDe(supplementaires));
  }

  const MessageIdentifiantsManquants: string := "DISCORD_TOKEN et DISCORD_CLIENT_ID doivent être définies dans le fichier .env."

  datatype IssueNettoyage =
    | ConfigurationManquante(message: string)
    | AucuneGuilde
    /** Each listed guild with whether its request succeeded, in order. */
    | Termine(resultats: seq<(string, bool)>)

  /** One request per guild, in order, with whether it succeeded. */
  function Requetes(client: string, guildIds: seq<string>, effacer: (string, string) -> bool): (r: seq<(string, bool)>)
    ensures |r| == |guildIds|
    ensures forall i :: 0 <= i < |r| ==> r[i] == (guildIds[i], effacer(client, guildIds[i]))
  {
    if guildIds == [] then []
    else Requetes(client, guildIds[..|guildIds| - 1], effacer) + [(guildIds[|guildIds| - 1], effacer(client, guildIds[|guildIds| - 1]))]
  }

  /** The script's `for` loop: one request per guild, a failure does not stop it. */
  method SupprimerDansChaque(client: string, guildIds: seq<string>, effacer: (string, string) -> bool)
    returns (resultats: seq<(string, bool)>)
    ensures resultats == Requetes(client, guildIds, effacer)
  {
    resultats := [];
    for i := 0 to |guildIds|
      invariant resultats == Requetes(client, guildIds[..i], effacer)
    {
      var succes := effacer(client, guildIds[i]);
      assert guildIds[..i + 1][..i] == guildIds[..i];
      resultats := resultats + [(guildIds[i], succes)];
    }
    assert guildIds[..|guildIds|] == guildIds;
  }

  /**
   * `supprimerCommandesGuildes`: fails before any request without a token or
   * client id, returns without any request when no guild is listed, and
   * otherwise asks each guild in turn; `effacer(clientId, guildId)` says
   * whether that request succeeded, and a failure does not stop the loop.
   */
  method SupprimerCommandesGuildes(env: map<string, string>, effacer: (string, string) -> bool)
    returns (issue: IssueNettoyage)
    ensures Lire(env, "DISCORD_TOKEN").GetOr("") == "" || Lire(env, "DISCORD_CLIENT_ID").GetOr("") == "" ==>
              issue == ConfigurationManquante(MessageIdentifiantsManquants)
    ensures Lire(env, "DISCORD_TOKEN").GetOr("") != "" && Lire(env, "DISCORD_CLIENT_ID").GetOr("") != "" ==>
              var ids := GuildIdsAttendus(Lire(env, "DISCORD_GUILD_ID"), Lire(env, "EXTRA_GUILD_IDS"));
              (ids == [] ==> issue == AucuneGuilde) &&
              (ids != [] ==> issue == Termine(Requetes(Lire(env, "DISCORD_CLIENT_ID").GetOr(""), ids, effacer)))
  {
    var jeton := Lire(env, "DISCORD_TOKEN").GetOr("");
    var client := Lire(env, "DISCORD_CLIENT_ID").GetOr("");
    if jeton == "" || client == "" {
      return ConfigurationManquante(MessageIdentifiantsManquants);
    }
    var guildIds := ExtraireGuildIds(Lire(env, "DISCORD_GUILD_ID"), Lire(env, "EXTRA_GUILD_IDS"));
    if |guildIds| == 0 {
      return AucuneGuilde;
    }
    var resultats := SupprimerDansChaque(client, guildIds, effacer);
    issue := Termine(resultats);
  }

  lemma DecouperExemples()
    ensures Decouper("b") == ["b"]
    ensures Decouper("a, b") == ["a", "", "b"]
  {
    assert "b"[1..] == [] && " b"[1..] == "b" && ", b"[1..] == " b" && "a, b"[1..] == ", b";
    assert Decouper("") == [""];
    assert !EstSeparateur('b') && !EstSeparateur('a') && EstSeparateur(',') && EstSeparateur(' ');
    assert ['b'] + "" == "b" && [""][1..] == [];
    assert Decouper("b") == ["b"];
    assert Decouper(" b") == ["", "b"];
    assert Decouper(", b") == ["", "", "b"];
    assert ['a'] + "" == "a" && ["", "", "b"][1..] == ["", "b"];
  }

  lemma CandidatsUn(x: string)
    requires IdPropre(x)
    ensures Candidats([x]) == [x]
  {
    IdPropreTrim(x);
    var n := [x];
    assert n[..0] == [];
  }

  lemma CandidatsAvecVide(x: string, z: string)
    requires IdPropre(x) && IdPropre(z)
    ensures Candidats([x, "", z]) == [x, z]
  {
    IdPropreTrim(x);
    IdPropreTrim(z);
    assert Trim("") == "";
    var n := [x, "", z];
    CandidatsUn(x);
    assert n[..2] == [x, ""] && [x, ""][..1] == [x];
    assert Candidats([x, ""]) == [x];
    assert Candidats(n) == Candidats([x, ""]) + [z];
  }

  lemma IdsDeExemples()
    ensures IdsDe(Some("a, b")) == ["a", "b"]
    ensures IdsDe(Some("b")) == ["b"]
  {
    DecouperExemples();
    CandidatsAvecVide("a", "b");
    CandidatsUn("b");
  }

  lemma DedupliquerRepete(x: string, y: string)
    requires x != y
    ensures Dedupliquer([x, y, y]) == [x, y]
  {
    var vide: seq<string> := [];
    DedupliquerEtape(vide, x);
    assert vide + [x] == [x];
    DedupliquerEtape([x], y);
    assert [x] + [y] == [x, y];
    DedupliquerEtape([x, y], y);
    assert [x, y] + [y] == [x, y, y];
  }

  lemma ConcatTrois(x: string, y: string)
    ensures [x, y] + [y] == [x, y, y]
  {
  }

  lemma GuildIdsDe(principal: Option<string>, supplementaires: Option<string>, x: string, y: string)
    requires x != y && IdsDe(principal) == [x, y] && IdsDe(supplementaires) == [y]
    ensures GuildIdsAttendus(principal, supplementaires) == [x, y]
  {
    var tous := IdsDe(principal) + IdsDe(supplementaires);
    assert GuildIdsAttendus(principal, supplementaires) == Dedupliquer(tous);
    assert tous == [x, y] + [y];
    ConcatTrois(x, y);
    DedupliquerRepete(x, y);
  }

  /** Commas and blanks in any mix separate ids; the same id listed twice is kept once. */
  lemma ExempleIds()
    ensures GuildIdsAttendus(Some("a, b"), Some("b")) == ["a", "b"]
  {
    IdsDeExemples();
    GuildIdsDe(Some("a, b"), Some("b"), "a", "b");
  }
}
