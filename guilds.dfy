/**
 * The persisted per-guild announcement settings: reading the stored record
 * back keeps each guild with a string channel and clamps its time.
 */
module StockageGuildes {
  import opened Commun
  import opened Texte
  import opened Json

  datatype ConfigurationSnapshot = ConfigurationSnapshot(channelId: string, heureAnnonce: int, minuteAnnonce: int, timezone: Option<string>)

  type SnapshotGuildes = map<string, ConfigurationSnapshot>

  /** `Math.trunc`: rounds toward zero. */
  function Trunc(x: real): (r: int)
    ensures x >= 0.0 ==> r as real <= x < r as real + 1.0
    ensures x < 0.0 ==> r as real - 1.0 < x <= r as real
  {
    if x >= 0.0 then x.Floor else -((-x).Floor)
  }

  /** `Math.min(Math.max(Math.trunc(x), min), max)`. */
  function BorneTronquee(x: real, min: int, max: int): (r: int)
    requires min <= max
    ensures min <= r <= max
    ensures min <= Trunc(x) <= max ==> r == Trunc(x)
    ensures Trunc(x) < min ==> r == min
    ensures Trunc(x) > max ==> r == max
  {
    var t := Trunc(x);
    if t < min then min else if t > max then max else t
  }

  /** A finite number is truncated and clamped; anything else takes the fallback. */
  function HeureOuMinute(v: JsValue, max: int, repli: int): (r: int)
    requires 0 <= max && 0 <= repli <= max
    ensures 0 <= r <= max
    ensures !EstNombreFini(v) ==> r == repli
    ensures EstNombreFini(v) ==> r == BorneTronquee(v.n.valeur, 0, max)
  {
    if EstNombreFini(v) then BorneTronquee(v.n.valeur, 0, max) else repli
  }

  /** A timezone is kept as written when it is a string with some non-blank content. */
  function FuseauConserve(v: JsValue): (r: Option<string>)
    ensures r.Some? <==> v.JStr? && Trim(v.s) != ""
    ensures r.Some? ==> r.valeur == v.s
  {
    if v.JStr? && Trim(v.s) != "" then Some(v.s) else None
  }

  /** One guild's stored settings, or None when they are dropped. */
  function NormaliserEntree(v: JsValue): (r: Option<ConfigurationSnapshot>)
    ensures r.Some? <==> EstObjet(v) && Champ(v, "channelId").JStr?
    ensures r.Some? ==> r.valeur.channelId == Champ(v, "channelId").s
    ensures r.Some? ==> 0 <= r.valeur.heureAnnonce <= 23 && 0 <= r.valeur.minuteAnnonce <= 59
    ensures r.Some? && !EstNombreFini(Champ(v, "heureAnnonce")) ==> r.valeur.heureAnnonce == 9
    ensures r.Some? && !EstNombreFini(Champ(v, "minuteAnnonce")) ==> r.valeur.minuteAnnonce == 0
    ensures r.Some? ==> r.valeur.timezone == FuseauConserve(Champ(v, "timezone"))
  {
    if !EstObjet(v) || !Champ(v, "channelId").JStr? then None
    else
      Some(ConfigurationSnapshot(
        Champ(v, "channelId").s,
        HeureOuMinute(Champ(v, "heureAnnonce"), 23, 9),
        HeureOuMinute(Champ(v, "minuteAnnonce"), 59, 0),
        FuseauConserve(Champ(v, "timezone"))))
  }

  /** The kept guilds among the keys `cles` of a stored record. */
  function ConfigurationsValides(e: map<string, JsValue>, cles: set<string>): SnapshotGuildes
  {
    map k | k in cles && k in e && NormaliserEntree(e[k]).Some? :: NormaliserEntree(e[k]).valeur
  }

  lemma ConfigurationsValidesAjout(e: map<string, JsValue>, cles: set<string>, cle: string)
    requires cle in e
    ensures ConfigurationsValides(e, cles + {cle}) == if NormaliserEntree(e[cle]).Some?
                                                      then ConfigurationsValides(e, cles)[cle := NormaliserEntree(e[cle]).valeur]
                                                      else ConfigurationsValides(e, cles)
  {
  }

  /** `normaliserConfiguration`: the kept guilds under their ids; a non-object gives {}. */
  method NormaliserConfiguration(v: JsValue) returns (resultat: SnapshotGuildes)
    ensures !EstObjet(v) ==> resultat == map[]
    ensures forall g :: g in resultat <==> g in Entrees(v) && NormaliserEntree(Entrees(v)[g]).Some?
    ensures forall g | g in resultat :: Some(resultat[g]) == NormaliserEntree(Entrees(v)[g])
  {
    resultat := map[];
    if !EstObjet(v) {
      return;
    }
    var e := Entrees(v);
    var restants := e.Keys;
    while restants != {}
      invariant restants <= e.Keys
      invariant resultat == ConfigurationsValides(e, e.Keys - restants)
      decreases |restants|
    {
      var guildId :| guildId in restants;
      var configuration := NormaliserEntree(e[guildId]);
      ConfigurationsValidesAjout(e, e.Keys - restants, guildId);
      if configuration.Some? {
        resultat := resultat[guildId := configuration.valeur];
      }
      assert e.Keys - (restants - {guildId}) == (e.Keys - restants) + {guildId};
      restants := restants - {guildId};
    }
    assert e.Keys - restants == e.Keys;
  }

  // ---------------------------------------------------------------------------
  // writing

  /** The JSON object written for one guild; an absent timezone is omitted. */
  function ConfigurationVersJson(c: ConfigurationSnapshot): JsValue
  {
    var base := map["channelId" := JStr(c.channelId), "heureAnnonce" := JNum(Fini(c.heureAnnonce as real)),
                    "minuteAnnonce" := JNum(Fini(c.minuteAnnonce as real))];
    JObj(if c.timezone.Some? then base["timezone" := JStr(c.timezone.valeur)] else base)
  }

  function SnapshotVersJson(s: SnapshotGuildes): JsValue
  {
    JObj(map g | g in s :: ConfigurationVersJson(s[g]))
  }

  /** What reading back always produces: times in range, timezones absent or non-blank. */
  predicate ConfigurationNormalisee(c: ConfigurationSnapshot)
  {
    0 <= c.heureAnnonce <= 23 && 0 <= c.minuteAnnonce <= 59 && (c.timezone.Some? ==> Trim(c.timezone.valeur) != "")
  }

  /** The fields of a written guild entry. */
  lemma ChampsConfiguration(c: ConfigurationSnapshot)
    ensures var v := ConfigurationVersJson(c);
            && EstObjet(v)
            && Champ(v, "channelId") == JStr(c.channelId)
            && Champ(v, "heureAnnonce") == JNum(Fini(c.heureAnnonce as real))
            && Champ(v, "minuteAnnonce") == JNum(Fini(c.minuteAnnonce as real))
            && Champ(v, "timezone") == if c.timezone.Some? then JStr(c.timezone.valeur) else JUndefined
  {
  }

  /** A whole number in range reads back as itself. */
  lemma HeureOuMinuteEntiere(n: int, max: int, repli: int)
    requires 0 <= n <= max && 0 <= repli <= max
    ensures HeureOuMinute(JNum(Fini(n as real)), max, repli) == n
  {
    assert Trunc(n as real) == n;
  }

  /** A normalised guild entry, once written, reads back unchanged. */
  lemma NormaliserEntreeVersJson(c: ConfigurationSnapshot)
    requires ConfigurationNormalisee(c)
    ensures NormaliserEntree(ConfigurationVersJson(c)) == Some(c)
  {
    var v := ConfigurationVersJson(c);
    ChampsConfiguration(c);
    HeureOuMinuteEntiere(c.heureAnnonce, 23, 9);
    HeureOuMinuteEntiere(c.minuteAnnonce, 59, 0);
    assert FuseauConserve(Champ(v, "timezone")) == c.timezone;
  }

  /** Every guild read back is normalised. */
  lemma NormaliserEntreeNormalisee(v: JsValue)
    requires NormaliserEntree(v).Some?
    ensures ConfigurationNormalisee(NormaliserEntree(v).valeur)
  {
  }

  /** Normalising a written snapshot of normalised settings gives it back: reading is idempotent. */
  lemma NormaliserSnapshotVersJson(s: SnapshotGuildes)
    requires forall g | g in s :: ConfigurationNormalisee(s[g])
    ensures ConfigurationsValides(Entrees(SnapshotVersJson(s)), Entrees(SnapshotVersJson(s)).Keys) == s
  {
    var e := Entrees(SnapshotVersJson(s));
    forall g | g in s ensures NormaliserEntree(e[g]) == Some(s[g]) {
      NormaliserEntreeVersJson(s[g]);
    }
  }

  /** Out-of-range and fractional times are truncated, then clamped. */
  lemma HeuresBornees()
    ensures HeureOuMinute(JNum(Fini(27.0)), 23, 9) == 23
    ensures HeureOuMinute(JNum(Fini(-3.5)), 23, 9) == 0
    ensures HeureOuMinute(JNum(Fini(8.9)), 23, 9) == 8
    ensures HeureOuMinute(JNum(Infini(true)), 23, 9) == 9
    ensures HeureOuMinute(JStr("8"), 59, 0) == 0
  {
    assert Trunc(8.9) == 8;
    assert Trunc(-3.5) == -3;
  }
}
