/**
 * The process configuration: read once from the environment, with the
 * three Discord identifiers mandatory and the announcement time clamped.
 */
module Environnement {
  import opened Commun
  import opened Texte

  /** The process environment after the `.env` file was loaded. */
  type Environnement = map<string, string>

  datatype Configuration = Configuration(
    jetonDiscord: string,
    identifiantGuild: string,
    identifiantSalonQuestions: string,
    urlApiQuizz: string,
    heureAnnonceQuotidienne: int,
    minuteAnnonceQuotidienne: int)

  const UrlApiQuizzParDefaut: string := "https://quizzapi.jomoreschi.fr/api/v1/"
  const MessageVariablesManquantes: string :=
    "Variables d’environnement manquantes: merci de renseigner DISCORD_TOKEN, DISCORD_GUILD_ID et DISCORD_CHANNEL_ID."

  /** `process.env[nom] ?? defaut`. */
  function Variable(env: Environnement, nom: string, defaut: string): string
  {
    if nom in env then env[nom] else defaut
  }

  /** `clampNombre` on the result of `parseInt`: NaN takes the fallback, a number is clamped. */
  function ClampNombre(valeur: Option<int>, min: int, max: int, repli: int): (r: int)
    requires min <= max
    ensures valeur.None? ==> r == repli
    ensures valeur.Some? ==> min <= r <= max
    ensures valeur.Some? && min <= valeur.valeur <= max ==> r == valeur.valeur
  {
    if valeur.None? then repli
    else if valeur.valeur < min then min
    else if valeur.valeur > max then max
    else valeur.valeur
  }

  /** Reads and checks the environment: the three Discord variables must be non-empty. */
  function LireConfiguration(env: Environnement): (r: Resultat<Configuration>)
    ensures r.Erreur? <==> Variable(env, "DISCORD_TOKEN", "") == "" || Variable(env, "DISCORD_GUILD_ID", "") == ""
                           || Variable(env, "DISCORD_CHANNEL_ID", "") == ""
    ensures r.Erreur? ==> r.message == MessageVariablesManquantes
    ensures r.Ok? ==> r.valeur.jetonDiscord == env["DISCORD_TOKEN"] && r.valeur.identifiantGuild == env["DISCORD_GUILD_ID"]
                      && r.valeur.identifiantSalonQuestions == env["DISCORD_CHANNEL_ID"]
    ensures r.Ok? ==> r.valeur.urlApiQuizz == Variable(env, "QUIZZ_API_URL", UrlApiQuizzParDefaut)
    ensures r.Ok? ==> 0 <= r.valeur.heureAnnonceQuotidienne <= 23 && 0 <= r.valeur.minuteAnnonceQuotidienne <= 59
    ensures r.Ok? && "DAILY_TRIGGER_HOUR" !in env ==> r.valeur.heureAnnonceQuotidienne == 9
    ensures r.Ok? && "DAILY_TRIGGER_MINUTE" !in env ==> r.valeur.minuteAnnonceQuotidienne == 0
    ensures r.Ok? && ParseInt(Variable(env, "DAILY_TRIGGER_HOUR", "9")).None? ==> r.valeur.heureAnnonceQuotidienne == 9
    ensures r.Ok? && ParseInt(Variable(env, "DAILY_TRIGGER_MINUTE", "0")).None? ==> r.valeur.minuteAnnonceQuotidienne == 0
  {
    var jeton := Variable(env, "DISCORD_TOKEN", "");
    var guild := Variable(env, "DISCORD_GUILD_ID", "");
    var salon := Variable(env, "DISCORD_CHANNEL_ID", "");
    var url := Variable(env, "QUIZZ_API_URL", UrlApiQuizzParDefaut);
    var heure := ParseInt(Variable(env, "DAILY_TRIGGER_HOUR", "9"));
    var minute := ParseInt(Variable(env, "DAILY_TRIGGER_MINUTE", "0"));
    assert "9" == NatToString(9) && "0" == NatToString(0);
    ParseIntNatToString(9);
    ParseIntNatToString(0);
    if jeton == "" || guild == "" || salon == "" then Erreur(MessageVariablesManquantes)
    else Ok(Configuration(jeton, guild, salon, url, ClampNombre(heure, 0, 23, 9), ClampNombre(minute, 0, 59, 0)))
  }

  /** `obtenirConfiguration` with its memo: the first successful read is returned ever after. */
  class ChargeurConfiguration {
    var memo: Option<Configuration>

    constructor()
      ensures memo == None
    {
      memo := None;
    }

    method ObtenirConfiguration(env: Environnement) returns (r: Resultat<Configuration>)
      modifies this
      ensures old(memo).Some? ==> r == Ok(old(memo).valeur) && memo == old(memo)
      ensures old(memo).None? ==> r == LireConfiguration(env)
      ensures old(memo).None? ==> memo == if r.Ok? then Some(r.valeur) else None
    {
      if memo.Some? {
        return Ok(memo.valeur);
      }
      r := LireConfiguration(env);
      if r.Ok? {
        memo := Some(r.valeur);
      }
    }
  }

  /** Once read, the configuration no longer depends on the environment. */
  method ExempleMemo(env1: Environnement, env2: Environnement)
    requires LireConfiguration(env1).Ok?
  {
    var chargeur := new ChargeurConfiguration();
    var a := chargeur.ObtenirConfiguration(env1);
    var b := chargeur.ObtenirConfiguration(env2);
    assert a == b;
  }

  /** A failed read is not memoised: a later call with a complete environment succeeds. */
  method ExempleEchecNonMemorise(env: Environnement)
    requires LireConfiguration(env).Ok?
  {
    var chargeur := new ChargeurConfiguration();
    var a := chargeur.ObtenirConfiguration(map[]);
    assert a.Erreur?;
    var b := chargeur.ObtenirConfiguration(env);
    assert b.Ok?;
  }

  lemma HorairesLus(env: Environnement)
    requires LireConfiguration(env).Ok?
    ensures LireConfiguration(env).valeur.heureAnnonceQuotidienne == ClampNombre(ParseInt(Variable(env, "DAILY_TRIGGER_HOUR", "9")), 0, 23, 9)
    ensures LireConfiguration(env).valeur.minuteAnnonceQuotidienne == ClampNombre(ParseInt(Variable(env, "DAILY_TRIGGER_MINUTE", "0")), 0, 59, 0)
  {
  }

  lemma LectureTrenteMoinsCinq()
    ensures ParseInt("30") == Some(30) && ParseInt("-5") == Some(-5)
  {
    assert "30" == IntToString(30);
    assert "-5" == IntToString(-5);
    ParseIntIntToString(30);
    ParseIntIntToString(-5);
  }

  /** Out-of-range times are clamped: hour 30 becomes 23, minute -5 becomes 0. */
  lemma HorairesBornes(env: Environnement)
    requires LireConfiguration(env).Ok?
    requires Variable(env, "DAILY_TRIGGER_HOUR", "9") == "30" && Variable(env, "DAILY_TRIGGER_MINUTE", "0") == "-5"
    ensures LireConfiguration(env).valeur.heureAnnonceQuotidienne == 23
    ensures LireConfiguration(env).valeur.minuteAnnonceQuotidienne == 0
  {
    HorairesLus(env);
    LectureTrenteMoinsCinq();
  }
}
