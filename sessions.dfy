/**
 * The day-keyed registry of published daily sessions: at most one session
 * per day key, replaced on re-registration.
 */
module Sessions {
  import opened Commun

  /** A published daily announcement: the day key, its message, thread and channel, and when it was posted. */
  datatype SessionQuotidienne = SessionQuotidienne(cle: string, messageId: string, threadId: string, channelId: string, creeLe: string)

  class RegistreSessions {
    var sessions: map<string, SessionQuotidienne>

    /** Every session is stored under its own day key. */
    ghost predicate Valid()
      reads this
    {
      forall k | k in sessions :: sessions[k].cle == k
    }

    constructor()
      ensures Valid() && sessions == map[]
    {
      sessions := map[];
    }

    /** `enregistrerSession`: stores the session under its key, replacing any previous one. */
    method Enregistrer(session: SessionQuotidienne)
      requires Valid()
      modifies this
      ensures Valid()
      ensures sessions == old(sessions)[session.cle := session]
      ensures Obtenir(session.cle) == Some(session)
    {
      sessions := sessions[session.cle := session];
    }

    /** `obtenirSession`: the session of a day key, if one is registered. */
    function Obtenir(cle: string): (r: Option<SessionQuotidienne>)
      reads this
      ensures r.Some? <==> cle in sessions
      ensures r.Some? ==> r.valeur == sessions[cle]
      ensures Valid() && r.Some? ==> r.valeur.cle == cle
    {
      if cle in sessions then Some(sessions[cle]) else None
    }

    /** `obtenirSessionPourDate`: the lookup under the day key the date formats to. */
    function ObtenirPourDate(date: int, formatJour: int -> string): (r: Option<SessionQuotidienne>)
      reads this
      ensures r == Obtenir(formatJour(date))
    {
      var cle := formatJour(date);
      if cle in sessions then Some(sessions[cle]) else None
    }

    /** `supprimerSession`: removes that key only. */
    method Supprimer(cle: string)
      requires Valid()
      modifies this
      ensures Valid()
      ensures sessions == old(sessions) - {cle}
      ensures Obtenir(cle).None?
    {
      sessions := sessions - {cle};
    }

    /** `supprimerSessionPourDate`: the removal under the day key the date formats to. */
    method SupprimerPourDate(date: int, formatJour: int -> string)
      requires Valid()
      modifies this
      ensures Valid()
      ensures sessions == old(sessions) - {formatJour(date)}
    {
      Supprimer(formatJour(date));
    }

    /** `viderSessions`: no session remains. */
    method Vider()
      modifies this
      ensures Valid()
      ensures sessions == map[]
    {
      sessions := map[];
    }
  }

  /** Registering two sessions for the same day keeps only the second; other days are untouched. */
  method ExempleRemplacement(s1: SessionQuotidienne, s2: SessionQuotidienne, autre: string)
    requires s1.cle == s2.cle && autre != s1.cle
  {
    var registre := new RegistreSessions();
    registre.Enregistrer(s1);
    registre.Enregistrer(s2);
    assert registre.Obtenir(s1.cle) == Some(s2);
    assert registre.Obtenir(autre) == None;
    registre.Supprimer(s1.cle);
    assert registre.sessions == map[];
  }
}
