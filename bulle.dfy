/**
 * What a message bubble shows (mobile/src/components/MessageBubble.js):
 * the trigger lookup, the hour extracted from a timestamp, and the parts
 * of the bubble each status switches on or off. Styles are left out; only
 * which parts appear and what text they carry is modelled.
 */
module Bulle {
  import opened Wrappers
  import opened Texte
  import opened Listes
  import opened Models
  import opened Triggers
  import opened Chat

  /** `getTrigger`: the trigger with this id, or `undefined`. */
  function GetTrigger(id: string): (r: Option<Trigger>)
    ensures r.Some? ==> r.value in TRIGGERS && r.value.id == id
    ensures r.None? <==> id !in IDS_TRIGGERS
  {
    var r := Find(TRIGGERS, (t: Trigger) => t.id == id);
    assert r.None? ==> forall j :: 0 <= j < |TRIGGERS| ==> IDS_TRIGGERS[j] != id;
    r
  }

  /** Every known trigger is found, and found as itself. */
  lemma GetTriggerConnu(i: nat)
    requires i < |TRIGGERS|
    ensures GetTrigger(TRIGGERS[i].id) == Some(TRIGGERS[i])
  {
    TriggersListes();
    var r := GetTrigger(TRIGGERS[i].id);
    var j :| 0 <= j < |TRIGGERS| && r.value == TRIGGERS[j];
    assert j == i;
  }

  /**
   * `formaterDate`: the first five characters of what follows the first
   * `T`, or "" when the timestamp is missing or has nothing after its `T`.
   */
  function FormaterDate(iso: Option<string>): (r: string)
    ensures |r| <= 5
    ensures r != "" ==> Vrai(iso) && 'T' in iso.value
    ensures Vrai(iso) && 'T' in iso.value ==>
      r == Prefix(Split(iso.value[|DatePartie(iso.value)| + 1..], 'T')[0], 5)
  {
    if !Vrai(iso) then ""
    else
      var parts := Split(iso.value, 'T');
      if |parts| < 2 then ""
      else
        HeureApresDate(iso.value);
        if parts[1] == "" then "" else Prefix(parts[1], 5)
  }

  /** The piece after the first `T` is the first piece of the text after it. */
  lemma HeureApresDate(s: string)
    requires 'T' in s
    ensures |Split(s, 'T')| >= 2
    ensures Split(s, 'T')[1] == Split(s[|DatePartie(s)| + 1..], 'T')[0]
  {
    var d := DatePartie(s);
    var t := s[|d| + 1..];
    assert s == d + "T" + t;
    SplitAt(d, 'T', t);
  }

  /** On `<date>T<hh:mm...>` the result is the five characters `hh:mm`. */
  lemma FormaterDateHeure(d: string, hhmm: string, reste: string)
    requires 'T' !in d && 'T' !in hhmm && |hhmm| == 5 && 'T' !in reste
    ensures FormaterDate(Some(d + "T" + hhmm + reste)) == hhmm
  {
    var s := d + "T" + hhmm + reste;
    assert s == d + "T" + (hhmm + reste);
    DatePartieAvant(d, hhmm + reste);
    assert s[|d| + 1..] == hhmm + reste;
    SplitWithout(hhmm + reste, 'T');
    assert (hhmm + reste)[..5] == hhmm;
  }

  /** The example of the comment in MessageBubble.js: "2026-02-27T14:32" shows as "14:32". */
  lemma FormaterDateExemple()
    ensures FormaterDate(Some("2026-02-27T14:32")) == "14:32"
  {
    assert "2026-02-27T14:32" == "2026-02-27" + "T" + "14:32" + "";
    FormaterDateHeure("2026-02-27", "14:32", "");
  }

  predicate EstEnAttente(statut: Statut) { statut == EnAttente }
  predicate EstAnnule(statut: Statut) { statut == Annule }

  /** `estDiffere`: there is a delivery time and it differs from the send time. */
  predicate EstDiffere(sentAt: Option<string>, deliveredAt: Option<string>) {
    Vrai(deliveredAt) && sentAt != deliveredAt
  }

  /**
   * Exactly one of pending, cancelled and delivered holds; a bubble is late
   * exactly when it has a non-empty delivery time other than its send time.
   */
  lemma ConditionsDuStatut(statut: Statut, sentAt: Option<string>, deliveredAt: Option<string>)
    ensures !(EstEnAttente(statut) && EstAnnule(statut))
    ensures !EstEnAttente(statut) && !EstAnnule(statut) <==> statut == Livre
    ensures EstDiffere(sentAt, deliveredAt) <==>
      deliveredAt.Some? && deliveredAt.value != "" && sentAt != deliveredAt
    ensures sentAt == deliveredAt ==> !EstDiffere(sentAt, deliveredAt)
  {
  }

  /** The footer: a cancel notice, a waiting notice, or the sent hour and, when late, the received hour. */
  datatype Pied = PiedAnnule | PiedEnAttente | PiedHeure(envoye: string, recu: Option<string>)

  /** The visible parts of a bubble. */
  datatype Vue = Vue(
    expediteur: Option<string>,
    badge: Option<Trigger>,
    texte: string,
    texteBarre: bool,
    pied: Pied,
    actions: bool)

  /** The bubble rendered for one list entry. */
  function VueBulle(c: MessageClient): (v: Vue)
    ensures v.texte == c.text
    ensures v.expediteur.Some? <==> !c.isMe
    ensures v.expediteur.Some? ==> v.expediteur.value == c.sender
    ensures v.badge.Some? <==> c.trigger != TRIGGER_DEFAUT && c.trigger in IDS_TRIGGERS && c.statut != Annule
    ensures v.badge.Some? ==> v.badge.value in TRIGGERS && v.badge.value.id == c.trigger
    ensures v.texteBarre <==> c.statut == Annule
    ensures v.pied.PiedAnnule? <==> c.statut == Annule
    ensures v.pied.PiedEnAttente? <==> c.statut == EnAttente
    ensures v.pied.PiedHeure? ==> v.pied.envoye == FormaterDate(c.sentAt)
    ensures v.pied.PiedHeure? ==>
      (v.pied.recu.Some? <==> EstDiffere(c.sentAt, c.deliveredAt))
    ensures v.pied.PiedHeure? && v.pied.recu.Some? ==> v.pied.recu.value == FormaterDate(c.deliveredAt)
    ensures v.actions <==> c.isMe && c.statut == EnAttente
  {
    var info := GetTrigger(c.trigger);
    var pied :=
      if EstAnnule(c.statut) then PiedAnnule
      else if EstEnAttente(c.statut) then PiedEnAttente
      else PiedHeure(FormaterDate(c.sentAt),
                     if EstDiffere(c.sentAt, c.deliveredAt) then Some(FormaterDate(c.deliveredAt)) else None);
    Vue(if !c.isMe then Some(c.sender) else None,
        if c.trigger != "maintenant" && info.Some? && !EstAnnule(c.statut) then info else None,
        c.text,
        EstAnnule(c.statut),
        pied,
        c.isMe && EstEnAttente(c.statut))
  }

  /** A bubble shows exactly one footer, and the edit buttons only on one's own waiting message. */
  lemma PiedUnique(c: MessageClient)
    ensures VueBulle(c).pied.PiedHeure? <==> c.statut == Livre
    ensures VueBulle(c).actions ==> VueBulle(c).pied.PiedEnAttente? && VueBulle(c).expediteur.None?
  {
  }
}
