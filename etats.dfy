/** The member states offered by the client and the triggers each releases (mobile/src/constants/etats.js). */
module Etats {
  import opened Listes

  datatype Etat = Etat(id: string, libelle: string, icon: string, couleur: string)

  const ETATS: seq<Etat> := [
    Etat("au_travail", "Au travail", "🏢", "#F39C12"),
    Etat("en_route", "En route", "🚗", "#3498DB"),
    Etat("a_la_maison", "À la maison", "🏠", "#27AE60")
  ]

  /** The state the client shows before any change. */
  const ETAT_DEFAUT: string := "au_travail"

  /** Which state releases which trigger. */
  const DECLENCHEMENTS: map<string, string> := map[
    "en_route" := "depart_travail",
    "a_la_maison" := "arrivee_maison"
  ]

  /** The ids of the listed states. */
  const IDS_ETATS: seq<string> := Map(ETATS, (e: Etat) => e.id)

  /** The three states, in display order, with distinct ids. */
  lemma EtatsListes()
    ensures IDS_ETATS == ["au_travail", "en_route", "a_la_maison"]
    ensures forall i, j :: 0 <= i < j < |ETATS| ==> ETATS[i].id != ETATS[j].id
  {
  }

  lemma EtatDefautConnu()
    ensures ETAT_DEFAUT in IDS_ETATS
  {
    assert IDS_ETATS[0] == ETAT_DEFAUT;
  }

  /** `en_route` and `a_la_maison` release a trigger; `au_travail` releases none. */
  lemma DeclenchementsDesEtats()
    ensures DECLENCHEMENTS.Keys == {"en_route", "a_la_maison"}
    ensures DECLENCHEMENTS["en_route"] == "depart_travail"
    ensures DECLENCHEMENTS["a_la_maison"] == "arrivee_maison"
    ensures "au_travail" !in DECLENCHEMENTS
    ensures forall e :: e in DECLENCHEMENTS ==> e in IDS_ETATS
  {
    assert IDS_ETATS[1] == "en_route" && IDS_ETATS[2] == "a_la_maison";
  }
}
