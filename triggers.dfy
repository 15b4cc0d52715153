/** The delivery triggers a sender may choose (mobile/src/constants/triggers.js). */
module Triggers {
  import opened Listes

  datatype Trigger = Trigger(id: string, libelle: string, icon: string, description: string)

  const TRIGGERS: seq<Trigger> := [
    Trigger("maintenant", "Maintenant", "⚡", "Livré immédiatement"),
    Trigger("depart_travail", "Départ travail", "🏢", "Livré à ton heure de sortie"),
    Trigger("arrivee_maison", "Arrivée maison", "🏠", "Livré en arrivant chez toi")
  ]

  /** The trigger preselected in the composer. */
  const TRIGGER_DEFAUT: string := "maintenant"

  /** The ids of the listed triggers. */
  const IDS_TRIGGERS: seq<string> := Map(TRIGGERS, (t: Trigger) => t.id)

  /** The three triggers, in display order, with distinct ids. */
  lemma TriggersListes()
    ensures IDS_TRIGGERS == ["maintenant", "depart_travail", "arrivee_maison"]
    ensures forall i, j :: 0 <= i < j < |TRIGGERS| ==> TRIGGERS[i].id != TRIGGERS[j].id
  {
  }

  lemma TriggerDefautConnu()
    ensures TRIGGER_DEFAUT == "maintenant" && TRIGGER_DEFAUT in IDS_TRIGGERS
  {
    assert IDS_TRIGGERS[0] == TRIGGER_DEFAUT;
  }
}
