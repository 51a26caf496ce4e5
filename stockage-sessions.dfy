/**
 * Reading persisted sessions back: every well-formed entry is kept under its
 * original key, everything else dropped.
 */
module StockageSessions {
  import opened Commun
  import opened Json

  /** A persisted session, with the guild it was posted in. */
  datatype EntreeSession = EntreeSession(guildId: string, cle: string, messageId: string, threadId: string, channelId: string, creeLe: string)

  type SnapshotSessions = map<string, EntreeSession>

  /** The JSON object a session is written as. */
  function SessionVersJson(s: EntreeSession): JsValue
  {
    JObj(map["guildId" := JStr(s.guildId), "cle" := JStr(s.cle), "messageId" := JStr(s.messageId),
             "threadId" := JStr(s.threadId), "channelId" := JStr(s.channelId), "creeLe" := JStr(s.creeLe)])
  }

  function SnapshotVersJson(s: SnapshotSessions): JsValue
  {
    JObj(map k | k in s :: SessionVersJson(s[k]))
  }

  /** `normaliserSession`: an object whose six fields are all strings, copied field by field. */
  function NormaliserSession(v: JsValue): (r: Option<EntreeSession>)
    ensures r.Some? <==> EstObjet(v) && Champ(v, "guildId").JStr? && Champ(v, "cle").JStr? && Champ(v, "messageId").JStr?
                         && Champ(v, "threadId").JStr? && Champ(v, "channelId").JStr? && Champ(v, "creeLe").JStr?
    ensures r.Some? ==> Champ(v, "guildId") == JStr(r.valeur.guildId) && Champ(v, "cle") == JStr(r.valeur.cle)
                        && Champ(v, "messageId") == JStr(r.valeur.messageId) && Champ(v, "threadId") == JStr(r.valeur.threadId)
                        && Champ(v, "channelId") == JStr(r.valeur.channelId) && Champ(v, "creeLe") == JStr(r.valeur.creeLe)
  {
    if !EstObjet(v) then None
    else
      var g, c, m, t, ch, cr := Champ(v, "guildId"), Champ(v, "cle"), Champ(v, "messageId"),
                                 Champ(v, "threadId"), Champ(v, "channelId"), Champ(v, "creeLe");
      if !g.JStr? || !c.JStr? || !m.JStr? || !t.JStr? || !ch.JStr? || !cr.JStr? then None
      else Some(EntreeSession(g.s, c.s, m.s, t.s, ch.s, cr.s))
  }

  /** The valid entries among the keys `cles` of a stored record. */
  function SessionsValides(e: map<string, JsValue>, cles: set<string>): SnapshotSessions
  {
    map k | k in cles && k in e && NormaliserSession(e[k]).Some? :: NormaliserSession(e[k]).valeur
  }

  /** `normaliserSessions`: exactly the valid entries, under their original keys; a non-object gives {}. */
  method NormaliserSessions(v: JsValue) returns (resultat: SnapshotSessions)
    ensures !EstObjet(v) ==> resultat == map[]
    ensures forall k :: k in resultat <==> k in Entrees(v) && NormaliserSession(Entrees(v)[k]).Some?
    ensures forall k | k in resultat :: Some(resultat[k]) == NormaliserSession(Entrees(v)[k])
  {
    resultat := map[];
    if !EstObjet(v) {
      return;
    }
    var e := Entrees(v);
    var restants := e.Keys;
    while restants != {}
      invariant restants <= e.Keys
      invariant resultat == SessionsValides(e, e.Keys - restants)
      decreases |restants|
    {
      var cle :| cle in restants;
      var normalisee := NormaliserSession(e[cle]);
      SessionsValidesAjout(e, e.Keys - restants, cle);
      if normalisee.Some? {
        resultat := resultat[cle := normalisee.valeur];
      }
      assert e.Keys - (restants - {cle}) == (e.Keys - restants) + {cle};
      restants := restants - {cle};
    }
    assert e.Keys - restants == e.Keys;
  }

  lemma SessionsValidesAjout(e: map<string, JsValue>, cles: set<string>, cle: string)
    requires cle in e
    ensures SessionsValides(e, cles + {cle}) == if NormaliserSession(e[cle]).Some?
                                                then SessionsValides(e, cles)[cle := NormaliserSession(e[cle]).valeur]
                                                else SessionsValides(e, cles)
  {
  }

  /** `cloneSnapshot`: a copy equal to its input. */
  method CloneSnapshot(snapshot: SnapshotSessions) returns (clone: SnapshotSessions)
    ensures clone == snapshot
  {
    clone := map[];
    var restants := snapshot.Keys;
    while restants != {}
      invariant restants <= snapshot.Keys
      invariant clone == map k | k in snapshot.Keys - restants :: snapshot[k]
      decreases |restants|
    {
      var cle :| cle in restants;
      var s := snapshot[cle];
      clone := clone[cle := EntreeSession(s.guildId, s.cle, s.messageId, s.threadId, s.channelId, s.creeLe)];
      restants := restants - {cle};
    }
    assert snapshot.Keys - restants == snapshot.Keys;
  }

  /** A written session reads back unchanged. */
  lemma NormaliserSessionVersJson(s: EntreeSession)
    ensures NormaliserSession(SessionVersJson(s)) == Some(s)
  {
    var v := SessionVersJson(s);
    assert Champ(v, "guildId") == JStr(s.guildId) && Champ(v, "cle") == JStr(s.cle);
    assert Champ(v, "messageId") == JStr(s.messageId) && Champ(v, "threadId") == JStr(s.threadId);
    assert Champ(v, "channelId") == JStr(s.channelId) && Champ(v, "creeLe") == JStr(s.creeLe);
  }

  /** A written snapshot reads back unchanged. */
  lemma NormaliserSnapshotVersJson(s: SnapshotSessions)
    ensures SessionsValides(Entrees(SnapshotVersJson(s)), Entrees(SnapshotVersJson(s)).Keys) == s
  {
    var e := Entrees(SnapshotVersJson(s));
    forall k | k in s ensures NormaliserSession(e[k]) == Some(s[k]) {
      NormaliserSessionVersJson(s[k]);
    }
  }

  /** An entry missing one field is dropped, even with the other five present. */
  lemma SessionIncompleteRejetee(s: EntreeSession)
    ensures NormaliserSession(JObj(Entrees(SessionVersJson(s)) - {"threadId"})).None?
  {
    assert Champ(JObj(Entrees(SessionVersJson(s)) - {"threadId"}), "threadId") == JUndefined;
  }
}
