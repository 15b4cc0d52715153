/**
 * Facts that span the files: the client's constant tables agree with the
 * server's, and what the server stores is what the screen and the bubble
 * then show. The notification filter of `handleChangerEtat` is examined
 * here too, as written and as evidently intended.
 */
module Coherence {
  import opened Wrappers
  import opened Models
  import Etats
  import Triggers
  import opened Backend
  import opened Chat
  import opened Bulle

  // ------------------------------------------------------ constant tables

  /** The client's state → trigger map is the server's, and links listed states to listed triggers. */
  lemma DeclenchementsIdentiques()
    ensures Etats.DECLENCHEMENTS == Backend.DECLENCHEMENTS
    ensures forall e :: e in Etats.DECLENCHEMENTS ==> e in Etats.IDS_ETATS
    ensures forall e :: e in Etats.DECLENCHEMENTS ==> Etats.DECLENCHEMENTS[e] in Triggers.IDS_TRIGGERS
    ensures forall e :: e in Etats.DECLENCHEMENTS ==> Etats.DECLENCHEMENTS[e] != Triggers.TRIGGER_DEFAUT
  {
    Etats.DeclenchementsDesEtats();
    Triggers.TriggersListes();
    assert Triggers.IDS_TRIGGERS[1] == "depart_travail";
    assert Triggers.IDS_TRIGGERS[2] == "arrivee_maison";
  }

  /** Every state the server knows releases what the client's table says, and nothing else does. */
  lemma TriggerLibereSelonClient(etat: string)
    ensures TriggerLibere(etat).Some? <==> etat in Etats.DECLENCHEMENTS
    ensures TriggerLibere(etat).Some? ==> TriggerLibere(etat).value == Etats.DECLENCHEMENTS[etat]
  {
  }

  /**
   * The defaults line up: an omitted trigger, the composer's default and the
   * server's immediate trigger are one and the same; a new member starts in
   * the state the screen shows first.
   */
  lemma DefautsAlignes(expediteurId: string, destinataireId: string, texte: string)
    ensures MessageEnvoi(expediteurId, destinataireId, texte).trigger == Triggers.TRIGGER_DEFAUT
    ensures Triggers.TRIGGER_DEFAUT == IMMEDIAT
    ensures ETAT_INITIAL == Etats.ETAT_DEFAUT && ETAT_INITIAL in Etats.IDS_ETATS
  {
    Etats.EtatDefautConnu();
    TriggerOmis(expediteurId, destinataireId, texte);
  }

  // ------------------------------------------------- server → bubble

  /** A message sent "maintenant" is delivered at its send time and never shows as late. */
  lemma ImmediatJamaisEnRetard(data: MessageEnvoi, id: string, maintenant: string, monId: string)
    requires data.trigger == Triggers.TRIGGER_DEFAUT
    ensures NouveauMessage(data, id, maintenant).statut == Livre
    ensures !EstDiffere(AdapterMessage(NouveauMessage(data, id, maintenant), monId).sentAt,
                        AdapterMessage(NouveauMessage(data, id, maintenant), monId).deliveredAt)
  {
  }

  /**
   * A deferred message delivered by a state change at a time other than its
   * send time shows both hours: sent, then received.
   */
  lemma DiffereEnRetard(m: Message, membreId: string, trigger: string, maintenant: string, monId: string)
    requires ALivrer(m, membreId, trigger) && maintenant != "" && maintenant != m.envoyeA
    ensures VueBulle(AdapterMessage(Delivre(m, maintenant), monId)).pied
         == PiedHeure(FormaterDate(Some(m.envoyeA)), Some(FormaterDate(Some(maintenant))))
  {
  }

  /** The demo's case: sent at 15:00, received at 18:05 on arriving home. */
  lemma DemoEnRetard(m: Message, monId: string)
    requires m.envoyeA == "2026-02-27T15:00:00" && m.destinataireId == "maman"
    requires m.trigger == "arrivee_maison" && m.statut == EnAttente
    ensures VueBulle(AdapterMessage(Delivre(m, "2026-02-27T18:05:00"), monId)).pied
         == PiedHeure("15:00", Some("18:05"))
  {
    assert "2026-02-27T15:00:00" == "2026-02-27" + "T" + "15:00" + ":00";
    assert "2026-02-27T18:05:00" == "2026-02-27" + "T" + "18:05" + ":00";
    FormaterDateHeure("2026-02-27", "15:00", ":00");
    FormaterDateHeure("2026-02-27", "18:05", ":00");
    DiffereEnRetard(m, "maman", "arrivee_maison", "2026-02-27T18:05:00", monId);
  }

  // ------------------------------------------------- server → screen list

  /** The client list's invariant: nothing from someone else is still pending. */
  predicate ListeCoherente(l: seq<MessageClient>) {
    forall i :: 0 <= i < |l| && !l[i].isMe ==> l[i].statut != EnAttente
  }

  /** Every snapshot the server returns satisfies it. */
  lemma SnapshotCoherent(ms: seq<Message>, monId: string, tous: bool)
    ensures ListeCoherente(Snapshot(Requete(ms, monId, tous), monId))
  {
    RequeteSansAttente(ms, monId, tous);
  }

  /** Every push keeps it. */
  lemma FusionCoherente(prev: seq<MessageClient>, data: Message, monId: string)
    requires ListeCoherente(prev)
    ensures ListeCoherente(FusionnerPousse(prev, data, monId))
  {
  }

  /** A deferred message pushed to its recipient at creation leaves the recipient's list alone. */
  lemma CreationDiffereeIgnoree(prev: seq<MessageClient>, data: MessageEnvoi, id: string, maintenant: string)
    requires data.trigger != IMMEDIAT
    ensures FusionnerPousse(prev, NouveauMessage(data, id, maintenant), data.destinataireId) == prev
  {
  }

  // ------------------------------------------- the notification filter

  /** As written, the filter finds nothing in any list that keeps the invariant. */
  lemma AAnnoncerVide(l: seq<MessageClient>)
    requires ListeCoherente(l)
    ensures AAnnoncer(l) == []
  {
  }

  /** So it finds nothing in any snapshot the server returns. */
  lemma AAnnoncerSnapshotVide(ms: seq<Message>, monId: string, tous: bool)
    ensures AAnnoncer(Snapshot(Requete(ms, monId, tous), monId)) == []
  {
    SnapshotCoherent(ms, monId, tous);
    AAnnoncerVide(Snapshot(Requete(ms, monId, tous), monId));
  }

  /**
   * The handler as written, on a list that keeps the invariant (as every
   * snapshot and push does), never raises a notification.
   */
  method ChangerEtatMuet(e: Ecran, nouvelEtat: string, livres: Option<nat>, snapshot: Option<seq<Message>>)
    returns (notifications: seq<MessageClient>)
    requires ListeCoherente(e.messages)
    modifies e
    ensures notifications == []
  {
    var avant := e.messages;
    notifications := e.ChangerEtat(nouvelEtat, livres, snapshot);
    AAnnoncerVide(avant);
  }

  /** A pending message from "moi" to "maman" on the trigger released by arriving home. */
  const ATTENTE := Message("m1", "moi", "maman", "Achète du pain", "arrivee_maison", EnAttente,
                           "2026-02-27T15:00:00", None)

  /**
   * The state change delivers one message to "maman", yet the filter on
   * her list from before the call yields no notification; the intended
   * filter on the refreshed list yields that message.
   */
  lemma AAnnoncerContreExemple()
    ensures TriggerLibere("a_la_maison") == Some("arrivee_maison")
    ensures NombreALivrer([ATTENTE], "maman", "arrivee_maison") == 1
    ensures AAnnoncer(Snapshot(Requete([ATTENTE], "maman", true), "maman")) == []
    ensures AdapterMessage(Delivre(ATTENTE, "2026-02-27T18:05:00"), "maman") in
      NotificationsLivrees(Snapshot(Requete([ATTENTE], "maman", true), "maman"),
                           Snapshot(Requete(Livrer([ATTENTE], "maman", "arrivee_maison", "2026-02-27T18:05:00"),
                                            "maman", true), "maman"))
  {
    SnapshotCoherent([ATTENTE], "maman", true);
    AAnnoncerVide(Snapshot(Requete([ATTENTE], "maman", true), "maman"));
    assert ALivrer(ATTENTE, "maman", "arrivee_maison");
    LivreesExactes([ATTENTE], "maman", "arrivee_maison", "2026-02-27T18:05:00");
    assert [ATTENTE][0] == ATTENTE;
  }

  /** `x` is, as it now reads, a row the delivery turned from pending to delivered, sent to `monId` by someone else. */
  predicate LivreeDAutrui(ms: seq<Message>, monId: string, trigger: string, maintenant: string, x: MessageClient) {
    exists i :: 0 <= i < |ms| && ALivrer(ms[i], monId, trigger) && ms[i].expediteurId != monId
           && x == AdapterMessage(Delivre(ms[i], maintenant), monId)
  }

  predicate IdsUniques(ms: seq<Message>) {
    forall i, j :: 0 <= i < j < |ms| ==> ms[i].id != ms[j].id
  }

  /** An entry of a snapshot is the adapted form of a row of the data. */
  lemma DansSnapshot(x: MessageClient, data: seq<Message>, monId: string)
    ensures x in Snapshot(data, monId) <==> exists y :: y in data && x == AdapterMessage(y, monId)
  {
    var l := Snapshot(data, monId);
    if x in l {
      var i :| 0 <= i < |l| && l[i] == x;
      assert data[i] in data;
    }
    if exists y :: y in data && x == AdapterMessage(y, monId) {
      var y :| y in data && x == AdapterMessage(y, monId);
      var i :| 0 <= i < |data| && data[i] == y;
      assert l[i] == x;
    }
  }

  /**
   * With the intended filter, the notifications after a state change are
   * exactly the messages that change delivered to the member from someone
   * else, as they now read (row ids being unique, as `uuid4` makes them).
   */
  lemma LivreesExactes(ms: seq<Message>, monId: string, trigger: string, maintenant: string)
    requires IdsUniques(ms)
    ensures forall x ::
      (x in NotificationsLivrees(Snapshot(Requete(ms, monId, true), monId),
                                 Snapshot(Requete(Livrer(ms, monId, trigger, maintenant), monId, true), monId))
       <==> LivreeDAutrui(ms, monId, trigger, maintenant, x))
  {
    var ms' := Livrer(ms, monId, trigger, maintenant);
    var avant := Snapshot(Requete(ms, monId, true), monId);
    var apres := Snapshot(Requete(ms', monId, true), monId);
    RequeteSansAttente(ms, monId, true);
    RequeteSansAttente(ms', monId, true);
    forall x ensures x in NotificationsLivrees(avant, apres) <==> LivreeDAutrui(ms, monId, trigger, maintenant, x)
    {
      DansSnapshot(x, Requete(ms', monId, true), monId);
      if x in NotificationsLivrees(avant, apres) {
        LivreeVersNotifiee(ms, monId, trigger, maintenant, x);
      }
      if LivreeDAutrui(ms, monId, trigger, maintenant, x) {
        var i :| 0 <= i < |ms| && ALivrer(ms[i], monId, trigger) && ms[i].expediteurId != monId
                 && x == AdapterMessage(Delivre(ms[i], maintenant), monId);
        NotifieeDeLivree(ms, monId, trigger, maintenant, i);
      }
    }
  }

  /** Each notification comes from a row this change delivered. */
  lemma LivreeVersNotifiee(ms: seq<Message>, monId: string, trigger: string, maintenant: string, x: MessageClient)
    requires x in NotificationsLivrees(Snapshot(Requete(ms, monId, true), monId),
                                       Snapshot(Requete(Livrer(ms, monId, trigger, maintenant), monId, true), monId))
    ensures LivreeDAutrui(ms, monId, trigger, maintenant, x)
  {
    var ms' := Livrer(ms, monId, trigger, maintenant);
    var ra := Requete(ms, monId, true);
    var ra' := Requete(ms', monId, true);
    assert x in Snapshot(ra', monId) && !x.isMe && !ContientId(Snapshot(ra, monId), x.id);
    RequeteSansAttente(ms, monId, true);
    RequeteSansAttente(ms', monId, true);
    NouvelleLivree(ms, ms', ra, ra', monId, trigger, maintenant, x);
  }

  /**
   * An entry of the new snapshot whose id the old one lacks comes from a row
   * the change delivered; the table before and after and both query results
   * are given by the facts the proof uses about them.
   */
  lemma NouvelleLivree(ms: seq<Message>, ms': seq<Message>, ra: seq<Message>, ra': seq<Message>,
                       monId: string, trigger: string, maintenant: string, x: MessageClient)
    requires |ms'| == |ms|
    requires forall i :: 0 <= i < |ms| ==>
      ms'[i] == if ALivrer(ms[i], monId, trigger) then Delivre(ms[i], maintenant) else ms[i]
    requires forall y :: y in ra <==> y in ms && Visible(y, monId, true)
    requires forall y :: y in ra' <==> y in ms' && Visible(y, monId, true)
    requires x in Snapshot(ra', monId) && !x.isMe && !ContientId(Snapshot(ra, monId), x.id)
    ensures LivreeDAutrui(ms, monId, trigger, maintenant, x)
  {
    DansSnapshot(x, ra', monId);
    var y :| y in ra' && x == AdapterMessage(y, monId);
    var i :| 0 <= i < |ms'| && ms'[i] == y;
    if !ALivrer(ms[i], monId, trigger) {
      assert ms[i] == y && ms[i] in ms;
      DansSnapshot(x, ra, monId);
      PresentContientId(Snapshot(ra, monId), x);
      assert false;
    }
    assert y == Delivre(ms[i], maintenant);
    assert ms[i].expediteurId != monId;
  }

  lemma PresentContientId(l: seq<MessageClient>, x: MessageClient)
    requires x in l
    ensures ContientId(l, x.id)
  {
    var k :| 0 <= k < |l| && l[k] == x;
    assert l[k].id == x.id;
  }

  /** Each row this change delivered from someone else is notified. */
  lemma NotifieeDeLivree(ms: seq<Message>, monId: string, trigger: string, maintenant: string, i: nat)
    requires IdsUniques(ms)
    requires i < |ms| && ALivrer(ms[i], monId, trigger) && ms[i].expediteurId != monId
    ensures AdapterMessage(Delivre(ms[i], maintenant), monId) in
      NotificationsLivrees(Snapshot(Requete(ms, monId, true), monId),
                           Snapshot(Requete(Livrer(ms, monId, trigger, maintenant), monId, true), monId))
  {
    var ms' := Livrer(ms, monId, trigger, maintenant);
    var ra := Requete(ms, monId, true);
    var ra' := Requete(ms', monId, true);
    RequeteSansAttente(ms, monId, true);
    RequeteSansAttente(ms', monId, true);
    LivreeNouvelle(ms, ms', ra, ra', monId, trigger, maintenant, i);
  }

  /** The delivered row shows in the new snapshot under an id the old snapshot lacks. */
  lemma LivreeNouvelle(ms: seq<Message>, ms': seq<Message>, ra: seq<Message>, ra': seq<Message>,
                       monId: string, trigger: string, maintenant: string, i: nat)
    requires IdsUniques(ms)
    requires i < |ms| && ALivrer(ms[i], monId, trigger) && ms[i].expediteurId != monId
    requires |ms'| == |ms| && ms'[i] == Delivre(ms[i], maintenant)
    requires forall y :: y in ra <==> y in ms && Visible(y, monId, true)
    requires forall y :: y in ra' <==> y in ms' && Visible(y, monId, true)
    ensures AdapterMessage(Delivre(ms[i], maintenant), monId) in Snapshot(ra', monId)
    ensures !ContientId(Snapshot(ra, monId), ms[i].id)
  {
    var x := AdapterMessage(Delivre(ms[i], maintenant), monId);
    assert ms'[i] in ms';
    DansSnapshot(x, ra', monId);
    var avant := Snapshot(ra, monId);
    if ContientId(avant, ms[i].id) {
      var k :| 0 <= k < |avant| && avant[k].id == ms[i].id;
      DansSnapshot(avant[k], ra, monId);
      assert false;
    }
  }
}
