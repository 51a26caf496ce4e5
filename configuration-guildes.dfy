/**
 * The in-memory registry of guild settings: loaded once from the guild
 * store, updated by the configuration command, written back after each change.
 */
module ConfigurationGuildes {
  import opened Commun
  import opened Texte
  import opened Json
  import opened StockageGuildes

  datatype ConfigurationGuilde = ConfigurationGuilde(
    guildId: string,
    channelId: string,
    heureAnnonce: int,
    minuteAnnonce: int,
    timezone: string,
    creeLe: string,
    misAJourLe: string)

  const FuseauDefaut: string := "Europe/Paris"

  /** `clamp`: a non-finite value takes the fallback, any other is truncated into [min, max]. */
  function Clamp(valeur: Num, min: int, max: int, repli: int): (r: int)
    requires min <= max
    ensures !valeur.Fini? ==> r == repli
    ensures valeur.Fini? ==> min <= r <= max
    ensures valeur.Fini? && min <= Trunc(valeur.valeur) <= max ==> r == Trunc(valeur.valeur)
    ensures valeur.Fini? && Trunc(valeur.valeur) < min ==> r == min
    ensures valeur.Fini? && Trunc(valeur.valeur) > max ==> r == max
  {
    if !valeur.Fini? then repli else BorneTronquee(valeur.valeur, min, max)
  }

  /** `timezone?.trim() || "Europe/Paris"`. */
  function FuseauDefini(timezone: Option<string>): (r: string)
    ensures timezone.None? || Trim(timezone.valeur) == "" ==> r == FuseauDefaut
    ensures timezone.Some? && Trim(timezone.valeur) != "" ==> r == Trim(timezone.valeur)
    ensures r != ""
  {
    if timezone.Some? && Trim(timezone.valeur) != "" then Trim(timezone.valeur) else FuseauDefaut
  }

  /** The stored timezone is already trimmed. */
  lemma FuseauDefiniRogne(timezone: Option<string>)
    ensures Trim(FuseauDefini(timezone)) == FuseauDefini(timezone)
  {
    if timezone.Some? && Trim(timezone.valeur) != "" {
      TrimBords(timezone.valeur);
      TrimIdentite(Trim(timezone.valeur));
    } else {
      assert SansEspaceAuxBords(FuseauDefaut);
      TrimIdentite(FuseauDefaut);
    }
  }

  /** `clamp` on a whole number: no truncation is needed. */
  function BorneEntiere(n: int, min: int, max: int): (r: int)
    requires min <= max
    ensures min <= r <= max
    ensures min <= n <= max ==> r == n
  {
    if n < min then min else if n > max then max else n
  }

  /** On a whole number, `clamp` is the plain integer clamp. */
  lemma ClampEntier(n: int, min: int, max: int, repli: int)
    requires min <= max
    ensures Clamp(Fini(n as real), min, max, repli) == BorneEntiere(n, min, max)
  {
    assert Trunc(n as real) == n;
  }

  /** A stored guild as loaded into the registry, stamped with the loading instant. */
  function DepuisSnapshot(guildId: string, s: ConfigurationSnapshot, maintenant: string): (c: ConfigurationGuilde)
    ensures c.guildId == guildId && c.channelId == s.channelId
    ensures 0 <= c.heureAnnonce <= 23 && 0 <= c.minuteAnnonce <= 59
    ensures 0 <= s.heureAnnonce <= 23 ==> c.heureAnnonce == s.heureAnnonce
    ensures 0 <= s.minuteAnnonce <= 59 ==> c.minuteAnnonce == s.minuteAnnonce
    ensures c.timezone == s.timezone.GetOr(FuseauDefaut)
    ensures c.creeLe == maintenant && c.misAJourLe == maintenant
  {
    ConfigurationGuilde(guildId, s.channelId, BorneEntiere(s.heureAnnonce, 0, 23), BorneEntiere(s.minuteAnnonce, 0, 59),
                        s.timezone.GetOr(FuseauDefaut), maintenant, maintenant)
  }

  function Chargement(stockage: SnapshotGuildes, maintenant: string): (r: map<string, ConfigurationGuilde>)
    ensures r.Keys == stockage.Keys
    ensures forall g | g in r :: r[g] == DepuisSnapshot(g, stockage[g], maintenant)
  {
    map g | g in stockage :: DepuisSnapshot(g, stockage[g], maintenant)
  }

  /** The four persisted fields of every registered guild. */
  function SnapshotDe(configs: map<string, ConfigurationGuilde>): (s: SnapshotGuildes)
    ensures s.Keys == configs.Keys
    ensures forall g | g in s :: s[g] == ConfigurationSnapshot(configs[g].channelId, configs[g].heureAnnonce,
                                                                configs[g].minuteAnnonce, Some(configs[g].timezone))
  {
    map g | g in configs :: ConfigurationSnapshot(configs[g].channelId, configs[g].heureAnnonce, configs[g].minuteAnnonce, Some(configs[g].timezone))
  }

  /** What the registry keeps: every guild under its own id, with times in range. */
  predicate ConfigurationsBienFormees(configs: map<string, ConfigurationGuilde>)
  {
    forall g | g in configs :: configs[g].guildId == g && 0 <= configs[g].heureAnnonce <= 23 && 0 <= configs[g].minuteAnnonce <= 59
  }

  /** The registered settings of a guild, if any. */
  function Existante(configs: map<string, ConfigurationGuilde>, guildId: string): (r: Option<ConfigurationGuilde>)
    ensures r.Some? <==> guildId in configs
    ensures r.Some? ==> r.valeur == configs[guildId]
  {
    if guildId in configs then Some(configs[guildId]) else None
  }

  /**
   * The settings `definirConfigurationGuilde` stores: clamped times (minute 0
   * when not given), the trimmed or default timezone, the creation date of
   * the existing settings if any, and a fresh update date.
   */
  function NouvelleConfiguration(guildId: string, channelId: string, heure: Num, minute: Option<Num>, timezone: Option<string>,
                                 existante: Option<ConfigurationGuilde>, maintenant: string): (c: ConfigurationGuilde)
    ensures c.guildId == guildId && c.channelId == channelId
    ensures c.heureAnnonce == Clamp(heure, 0, 23, 9) && 0 <= c.heureAnnonce <= 23
    ensures c.minuteAnnonce == Clamp(minute.GetOr(Fini(0.0)), 0, 59, 0) && 0 <= c.minuteAnnonce <= 59
    ensures minute.None? ==> c.minuteAnnonce == 0
    ensures c.timezone == FuseauDefini(timezone) && c.timezone != ""
    ensures c.creeLe == if existante.Some? then existante.valeur.creeLe else maintenant
    ensures c.misAJourLe == maintenant
  {
    ConfigurationGuilde(guildId, channelId, Clamp(heure, 0, 23, 9), Clamp(minute.GetOr(Fini(0.0)), 0, 59, 0), FuseauDefini(timezone),
                        if existante.Some? then existante.valeur.creeLe else maintenant, maintenant)
  }

  /** The values of a well-formed registry, one per guild, in some order. */
  method ValeursDe(configs: map<string, ConfigurationGuilde>) returns (r: seq<ConfigurationGuilde>)
    requires ConfigurationsBienFormees(configs)
    ensures |r| == |configs|
    ensures forall c :: c in r <==> c.guildId in configs && configs[c.guildId] == c
    ensures forall i, j :: 0 <= i < j < |r| ==> r[i].guildId != r[j].guildId
  {
    r := [];
    var restants := configs.Keys;
    while restants != {}
      invariant restants <= configs.Keys
      invariant |r| + |restants| == |configs|
      invariant forall i :: 0 <= i < |r| ==> r[i].guildId in configs && r[i].guildId !in restants && configs[r[i].guildId] == r[i]
      invariant forall g | g in configs && g !in restants :: configs[g] in r
      invariant forall i, j :: 0 <= i < j < |r| ==> r[i].guildId != r[j].guildId
      decreases |restants|
    {
      var guildId :| guildId in restants;
      r := r + [configs[guildId]];
      restants := restants - {guildId};
    }
    assert |configs.Keys| == |configs|;
  }

  class RegistreConfigurations {
    /** The registry; None until the first access loads it. */
    var cache: Option<map<string, ConfigurationGuilde>>
    /** What the guild store holds. */
    var stockage: SnapshotGuildes

    ghost predicate Valid()
      reads this
    {
      cache.Some? ==> ConfigurationsBienFormees(cache.valeur)
    }

    constructor(stockageInitial: SnapshotGuildes)
      ensures Valid()
      ensures cache == None && stockage == stockageInitial
    {
      cache := None;
      stockage := stockageInitial;
    }

    /** The registry as the next access sees it: the loaded one, or the store loaded at `maintenant`. */
    function Charge(maintenant: string): (r: map<string, ConfigurationGuilde>)
      reads this
      requires Valid()
      ensures ConfigurationsBienFormees(r)
    {
      if cache.Some? then cache.valeur else Chargement(stockage, maintenant)
    }

    /** `chargerCache`: loads the store into the registry on first use. */
    method ChargerCache(maintenant: string)
      requires Valid()
      modifies this
      ensures Valid()
      ensures cache == Some(old(Charge(maintenant))) && stockage == old(stockage)
    {
      if cache.Some? {
        return;
      }
      var configs: map<string, ConfigurationGuilde> := map[];
      var restants := stockage.Keys;
      while restants != {}
        invariant restants <= stockage.Keys
        invariant configs == map g | g in stockage.Keys - restants :: DepuisSnapshot(g, stockage[g], maintenant)
        decreases |restants|
      {
        var guildId :| guildId in restants;
        configs := configs[guildId := DepuisSnapshot(guildId, stockage[guildId], maintenant)];
        restants := restants - {guildId};
      }
      assert stockage.Keys - restants == stockage.Keys;
      assert configs == Chargement(stockage, maintenant);
      cache := Some(configs);
    }

    /** `persister`: writes the registry's four fields per guild to the store; nothing before loading. */
    method Persister()
      modifies this
      ensures cache == old(cache)
      ensures cache.None? ==> stockage == old(stockage)
      ensures cache.Some? ==> stockage == SnapshotDe(cache.valeur)
    {
      if cache.None? {
        return;
      }
      var configs := cache.valeur;
      var snapshot: SnapshotGuildes := map[];
      var restants := configs.Keys;
      while restants != {}
        invariant restants <= configs.Keys
        invariant snapshot == map g | g in configs.Keys - restants ::
                                ConfigurationSnapshot(configs[g].channelId, configs[g].heureAnnonce, configs[g].minuteAnnonce, Some(configs[g].timezone))
        decreases |restants|
      {
        var guildId :| guildId in restants;
        var c := configs[guildId];
        snapshot := snapshot[guildId := ConfigurationSnapshot(c.channelId, c.heureAnnonce, c.minuteAnnonce, Some(c.timezone))];
        restants := restants - {guildId};
      }
      stockage := snapshot;
    }

    /** `obtenirConfigurationGuilde`. */
    method Obtenir(guildId: string, maintenant: string) returns (r: Option<ConfigurationGuilde>)
      requires Valid()
      modifies this
      ensures Valid()
      ensures cache == Some(old(Charge(maintenant))) && stockage == old(stockage)
      ensures r.None? <==> guildId !in cache.valeur
      ensures r.Some? ==> r.valeur == cache.valeur[guildId] && r.valeur.guildId == guildId
    {
      ChargerCache(maintenant);
      r := if guildId in cache.valeur then Some(cache.valeur[guildId]) else None;
    }

    /** `listerConfigurationsGuildes`: every registered guild's settings, each once. */
    method Lister(maintenant: string) returns (r: seq<ConfigurationGuilde>)
      requires Valid()
      modifies this
      ensures Valid()
      ensures cache == Some(old(Charge(maintenant))) && stockage == old(stockage)
      ensures |r| == |cache.valeur|
      ensures forall c :: c in r <==> c.guildId in cache.valeur && cache.valeur[c.guildId] == c
      ensures forall i, j :: 0 <= i < j < |r| ==> r[i].guildId != r[j].guildId
    {
      ChargerCache(maintenant);
      r := ValeursDe(cache.valeur);
    }

    /**
     * `definirConfigurationGuilde`: builds the new settings from what the
     * registry held before, stores them and writes the registry back.
     */
    method Definir(guildId: string, channelId: string, heure: Num, minute: Option<Num>, timezone: Option<string>, maintenant: string)
      returns (c: ConfigurationGuilde)
      requires Valid()
      modifies this
      ensures Valid()
      ensures c == NouvelleConfiguration(guildId, channelId, heure, minute, timezone, Existante(old(Charge(maintenant)), guildId), maintenant)
      ensures cache == Some(old(Charge(maintenant))[guildId := c])
      ensures stockage == SnapshotDe(cache.valeur)
    {
      ghost var avant := Charge(maintenant);
      ChargerCache(maintenant);
      var configs := cache.valeur;
      assert configs == avant;
      c := NouvelleConfiguration(guildId, channelId, heure, minute, timezone, Existante(configs, guildId), maintenant);
      Enregistrer(c);
      assert cache == Some(avant[guildId := c]);
    }

    /** Puts one guild's settings in the loaded registry and writes the registry back. */
    method Enregistrer(c: ConfigurationGuilde)
      requires Valid() && cache.Some?
      requires 0 <= c.heureAnnonce <= 23 && 0 <= c.minuteAnnonce <= 59
      modifies this
      ensures Valid()
      ensures cache == Some(old(cache.valeur)[c.guildId := c])
      ensures stockage == SnapshotDe(cache.valeur)
    {
      cache := Some(cache.valeur[c.guildId := c]);
      Persister();
    }

    /** `supprimerConfigurationGuilde`: an unknown guild changes nothing and writes nothing. */
    method Supprimer(guildId: string, maintenant: string)
      requires Valid()
      modifies this
      ensures Valid()
      ensures guildId !in old(Charge(maintenant)) ==> cache == Some(old(Charge(maintenant))) && stockage == old(stockage)
      ensures guildId in old(Charge(maintenant)) ==>
                cache == Some(old(Charge(maintenant)) - {guildId}) && stockage == SnapshotDe(cache.valeur)
    {
      ChargerCache(maintenant);
      if guildId !in cache.valeur {
        return;
      }
      cache := Some(cache.valeur - {guildId});
      Persister();
    }
  }

  /** Setting a guild then reading it gives the stored settings back, other guilds untouched. */
  method ExempleDefinirObtenir(registre: RegistreConfigurations, g: string, autre: string, maintenant: string)
    requires registre.Valid() && g != autre
    modifies registre
  {
    var avant := registre.Charge(maintenant);
    var c := registre.Definir(g, "salon", Fini(25.7), None, Some("  Europe/London "), maintenant);
    assert c.heureAnnonce == 23 && c.minuteAnnonce == 0;
    var lu := registre.Obtenir(g, "plus tard");
    assert lu == Some(c);
    var luAutre := registre.Obtenir(autre, "plus tard");
    assert luAutre.Some? <==> autre in avant;
  }

  /** The written registry reads back, through the store's normalisation, as the same four fields. */
  lemma PersistanceRelue(configs: map<string, ConfigurationGuilde>)
    requires ConfigurationsBienFormees(configs)
    requires forall g | g in configs :: Trim(configs[g].timezone) != ""
    ensures ConfigurationsValides(Entrees(SnapshotVersJson(SnapshotDe(configs))), Entrees(SnapshotVersJson(SnapshotDe(configs))).Keys)
            == SnapshotDe(configs)
  {
    NormaliserSnapshotVersJson(SnapshotDe(configs));
  }

  /** Reloading a written registry restores every guild's channel, times and timezone. */
  lemma RechargementFidele(configs: map<string, ConfigurationGuilde>, maintenant: string)
    requires ConfigurationsBienFormees(configs)
    ensures forall g | g in configs ::
              var c := Chargement(SnapshotDe(configs), maintenant)[g];
              c.guildId == g && c.channelId == configs[g].channelId && c.heureAnnonce == configs[g].heureAnnonce &&
              c.minuteAnnonce == configs[g].minuteAnnonce && c.timezone == configs[g].timezone
  {
  }
}
