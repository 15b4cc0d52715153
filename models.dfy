/** The records the backend exchanges (pydantic models of backend/models.py). */
module Models {
  import opened Wrappers

  /** A message's lifecycle status: "en_attente", "livre" or "annule". */
  datatype Statut = EnAttente | Livre | Annule

  /** The body of `POST /membres`. */
  datatype MembreCreation = MembreCreation(id: string, nom: string)

  /** The body of `POST /membres/{id}/etat`; the state id is free text. */
  datatype MembreEtat = MembreEtat(etat: string)

  /** A row of the members table as the server returns it. */
  datatype Membre = Membre(id: string, nom: string, etat: string)

  /** The body of `POST /messages`; an omitted trigger means "maintenant". */
  datatype MessageEnvoi = MessageEnvoi(
    expediteurId: string,
    destinataireId: string,
    texte: string,
    trigger: string := "maintenant")

  /** A row of the messages table; `livreA` is null until delivery. */
  datatype Message = Message(
    id: string,
    expediteurId: string,
    destinataireId: string,
    texte: string,
    trigger: string,
    statut: Statut,
    envoyeA: string,
    livreA: Option<string>)

  /** The row invariant: delivered exactly when a delivery time is recorded. */
  predicate LivraisonCoherente(m: Message) {
    m.statut == Livre <==> m.livreA.Some?
  }

  /** A request that leaves the trigger out asks for immediate delivery. */
  lemma TriggerOmis(expediteurId: string, destinataireId: string, texte: string)
    ensures MessageEnvoi(expediteurId, destinataireId, texte).trigger == "maintenant"
  {
  }
}
