/**
 * The server side of deferred delivery (backend/main.py): the trigger
 * registry, member creation, the state change that releases pending
 * messages, message creation and the visibility query. The two SQL tables
 * are the fields of `Serveur`; `datetime.now()` and `uuid4()` are parameters.
 */
module Backend {
  import opened Wrappers
  import opened Models
  import opened Texte
  import opened Listes

  /** An `HTTPException`: status code and detail text. */
  datatype Erreur = Erreur(code: int, detail: string)

  /** The JSON answer of a successful state change (its display sentence aside). */
  datatype EtatChange = EtatChange(etat: string, messagesLivres: nat)

  const ERREUR_DOUBLON := Erreur(400, "Ce membre existe déjà")
  const ERREUR_INCONNU := Erreur(404, "Membre introuvable")

  /** The state a new member starts in. */
  const ETAT_INITIAL := "au_travail"

  /** The trigger that is delivered at creation instead of waiting. */
  const IMMEDIAT := "maintenant"

  // ------------------------------------------------------ trigger registry

  /** Which member state releases which trigger. */
  const DECLENCHEMENTS: map<string, string> := map[
    "en_route" := "depart_travail",
    "a_la_maison" := "arrivee_maison"
  ]

  /** `DECLENCHEMENTS.get(etat)`: only `en_route` and `a_la_maison` release a trigger. */
  function TriggerLibere(etat: string): (r: Option<string>)
    ensures r == Some("depart_travail") <==> etat == "en_route"
    ensures r == Some("arrivee_maison") <==> etat == "a_la_maison"
    ensures r.None? <==> etat != "en_route" && etat != "a_la_maison"
    ensures r != Some(IMMEDIAT)
  {
    if etat in DECLENCHEMENTS then Some(DECLENCHEMENTS[etat]) else None
  }

  // ------------------------------------------------------------- creation

  /** The row `envoyer_message` inserts: delivered at once only for "maintenant". */
  function NouveauMessage(data: MessageEnvoi, id: string, maintenant: string): (m: Message)
    ensures m == Message(id, data.expediteurId, data.destinataireId, data.texte, data.trigger,
                         m.statut, maintenant, m.livreA)
    ensures m.statut == Livre <==> data.trigger == IMMEDIAT
    ensures m.statut != Annule
    ensures m.statut == Livre ==> m.livreA == Some(m.envoyeA)
    ensures LivraisonCoherente(m)
  {
    var immediat := data.trigger == IMMEDIAT;
    Message(id, data.expediteurId, data.destinataireId, data.texte, data.trigger,
            if immediat then Livre else EnAttente, maintenant,
            if immediat then Some(maintenant) else None)
  }

  // ------------------------------------------------------------- delivery

  /** The WHERE clause of the delivery UPDATE. */
  predicate ALivrer(m: Message, membreId: string, trigger: string) {
    m.destinataireId == membreId && m.trigger == trigger && m.statut == EnAttente
  }

  /** The row after `SET statut = 'livre', livre_a = maintenant`. */
  function Delivre(m: Message, maintenant: string): Message {
    m.(statut := Livre, livreA := Some(maintenant))
  }

  /**
   * The delivery UPDATE applied to the whole table: exactly the rows of the
   * WHERE clause are delivered at `maintenant`, every other row is untouched.
   */
  function Livrer(ms: seq<Message>, membreId: string, trigger: string, maintenant: string): (r: seq<Message>)
    ensures |r| == |ms|
    ensures forall i :: 0 <= i < |ms| ==>
      r[i] == if ALivrer(ms[i], membreId, trigger) then Delivre(ms[i], maintenant) else ms[i]
  {
    if ms == [] then []
    else
      var m := if ALivrer(ms[0], membreId, trigger) then Delivre(ms[0], maintenant) else ms[0];
      [m] + Livrer(ms[1..], membreId, trigger, maintenant)
  }

  /** The UPDATE's `rowcount`: how many rows satisfy its WHERE clause. */
  function NombreALivrer(ms: seq<Message>, membreId: string, trigger: string): nat {
    if ms == [] then 0
    else (if ALivrer(ms[0], membreId, trigger) then 1 else 0) + NombreALivrer(ms[1..], membreId, trigger)
  }

  /** How many positions of two equally long tables hold different rows. */
  function NombreDifferences(a: seq<Message>, b: seq<Message>): nat
    requires |a| == |b|
  {
    if a == [] then 0
    else (if a[0] != b[0] then 1 else 0) + NombreDifferences(a[1..], b[1..])
  }

  /** The reported count is exactly the number of rows the UPDATE changed. */
  lemma {:induction false} LivrerCompte(ms: seq<Message>, membreId: string, trigger: string, maintenant: string)
    ensures NombreALivrer(ms, membreId, trigger) == NombreDifferences(ms, Livrer(ms, membreId, trigger, maintenant))
  {
    if ms != [] {
      var r := Livrer(ms, membreId, trigger, maintenant);
      assert r[1..] == Livrer(ms[1..], membreId, trigger, maintenant);
      LivrerCompte(ms[1..], membreId, trigger, maintenant);
    }
  }

  /**
   * Repeating the delivery finds nothing left to deliver and changes nothing,
   * whatever the clock says the second time: delivered rows fail the pending guard.
   */
  lemma {:induction false} LivrerIdempotent(ms: seq<Message>, membreId: string, trigger: string,
                                            maintenant: string, plusTard: string)
    ensures NombreALivrer(Livrer(ms, membreId, trigger, maintenant), membreId, trigger) == 0
    ensures Livrer(Livrer(ms, membreId, trigger, maintenant), membreId, trigger, plusTard)
         == Livrer(ms, membreId, trigger, maintenant)
  {
    if ms != [] {
      var r := Livrer(ms, membreId, trigger, maintenant);
      assert r[1..] == Livrer(ms[1..], membreId, trigger, maintenant);
      LivrerIdempotent(ms[1..], membreId, trigger, maintenant, plusTard);
    }
  }

  /** Delivery keeps "delivered exactly when `livre_a` is set" on every row. */
  lemma LivrerCoherent(ms: seq<Message>, membreId: string, trigger: string, maintenant: string)
    requires forall i :: 0 <= i < |ms| ==> LivraisonCoherente(ms[i])
    ensures forall i :: 0 <= i < |ms| ==> LivraisonCoherente(Livrer(ms, membreId, trigger, maintenant)[i])
  {
  }

  // ---------------------------------------------------------------- query

  /** The WHERE clause of `get_messages`. */
  predicate Visible(m: Message, qui: string, tous: bool) {
    if tous then m.expediteurId == qui || (m.destinataireId == qui && m.statut == Livre)
    else m.destinataireId == qui && m.statut == Livre
  }

  /** `ORDER BY envoye_a`. */
  predicate TrieParEnvoi(s: seq<Message>) {
    forall i, j :: 0 <= i < j < |s| ==> TextLe(s[i].envoyeA, s[j].envoyeA)
  }

  lemma TrieCons(x: Message, s: seq<Message>)
    requires TrieParEnvoi(s)
    requires forall y :: y in s ==> TextLe(x.envoyeA, y.envoyeA)
    ensures TrieParEnvoi([x] + s)
  {
    var r := [x] + s;
    forall i, j | 0 <= i < j < |r| ensures TextLe(r[i].envoyeA, r[j].envoyeA) {
      assert r[j] == s[j - 1];
      if i > 0 { assert r[i] == s[i - 1]; }
    }
  }

  function Inserer(m: Message, s: seq<Message>): (r: seq<Message>)
    requires TrieParEnvoi(s)
    ensures TrieParEnvoi(r)
    ensures multiset(r) == multiset(s) + multiset{m}
  {
    if s == [] || TextLe(m.envoyeA, s[0].envoyeA) then
      InsererEnTete(m, s);
      [m] + s
    else
      assert s == [s[0]] + s[1..];
      var t := Inserer(m, s[1..]);
      InsererApres(m, s, t);
      [s[0]] + t
  }

  lemma InsererEnTete(m: Message, s: seq<Message>)
    requires TrieParEnvoi(s)
    requires s == [] || TextLe(m.envoyeA, s[0].envoyeA)
    ensures TrieParEnvoi([m] + s)
  {
    forall y | y in s ensures TextLe(m.envoyeA, y.envoyeA) {
      var j :| 0 <= j < |s| && s[j] == y;
      if j > 0 { TextLeTrans(m.envoyeA, s[0].envoyeA, y.envoyeA); }
    }
    TrieCons(m, s);
  }

  lemma InsererApres(m: Message, s: seq<Message>, t: seq<Message>)
    requires s != [] && TrieParEnvoi(s) && !TextLe(m.envoyeA, s[0].envoyeA)
    requires TrieParEnvoi(t) && multiset(t) == multiset(s[1..]) + multiset{m}
    ensures TrieParEnvoi([s[0]] + t)
  {
    forall y | y in t ensures TextLe(s[0].envoyeA, y.envoyeA) {
      assert y in multiset(t);
      if y == m {
        TextLeTotal(m.envoyeA, s[0].envoyeA);
      } else {
        assert y in multiset(s[1..]);
        var j :| 0 <= j < |s[1..]| && s[1..][j] == y;
        assert s[j + 1] == y;
      }
    }
    TrieCons(s[0], t);
  }

  /** Insertion sort on `envoye_a`: a sorted permutation of the rows. */
  function TrierParEnvoi(s: seq<Message>): (r: seq<Message>)
    ensures TrieParEnvoi(r)
    ensures multiset(r) == multiset(s)
  {
    if s == [] then []
    else
      assert s == [s[0]] + s[1..];
      Inserer(s[0], TrierParEnvoi(s[1..]))
  }

  /**
   * `get_messages`: exactly the visible rows, each as often as it is stored,
   * in `envoye_a` order.
   */
  function Requete(ms: seq<Message>, qui: string, tous: bool): (r: seq<Message>)
    ensures TrieParEnvoi(r)
    ensures forall x :: multiset(r)[x] == if Visible(x, qui, tous) then multiset(ms)[x] else 0
  {
    TrierParEnvoi(Filter(ms, (x: Message) => Visible(x, qui, tous)))
  }

  /**
   * A member never reads a pending message addressed to them: whatever the
   * query returns is their own message or a delivered one addressed to them.
   */
  lemma RequeteSansAttente(ms: seq<Message>, qui: string, tous: bool)
    ensures forall x :: x in Requete(ms, qui, tous) && x.expediteurId != qui ==>
      x.destinataireId == qui && x.statut == Livre
    ensures forall x :: x in Requete(ms, qui, tous) <==> x in ms && Visible(x, qui, tous)
  {
    var r := Requete(ms, qui, tous);
    forall x ensures x in r <==> x in ms && Visible(x, qui, tous) {
      assert x in r <==> multiset(r)[x] > 0;
      assert x in ms <==> multiset(ms)[x] > 0;
    }
  }

  /** What the plain query returns, the `tous` query returns too. */
  lemma RequeteRecusIncluse(ms: seq<Message>, qui: string)
    ensures multiset(Requete(ms, qui, false)) <= multiset(Requete(ms, qui, true))
  {
    var a, b := Requete(ms, qui, false), Requete(ms, qui, true);
    forall x ensures multiset(a)[x] <= multiset(b)[x] {
      assert Visible(x, qui, false) ==> Visible(x, qui, true);
    }
  }

  // ---------------------------------------------------------------- tables

  /** The `membres` table keyed by id, and the `messages` table in insertion order. */
  class Serveur {
    var membres: map<string, Membre>
    var messages: seq<Message>

    ghost predicate Valid()
      reads this
    {
      && (forall id :: id in membres ==> membres[id].id == id)
      && (forall i :: 0 <= i < |messages| ==> LivraisonCoherente(messages[i]))
    }

    constructor ()
      ensures Valid() && membres == map[] && messages == []
    {
      membres := map[];
      messages := [];
    }

    /** `POST /membres`: a new member starts `au_travail`; a taken id fails with 400. */
    method CreerMembre(data: MembreCreation) returns (r: Result<Membre, Erreur>)
      requires Valid()
      modifies this
      ensures Valid() && messages == old(messages)
      ensures data.id in old(membres) ==> r == Failure(ERREUR_DOUBLON) && membres == old(membres)
      ensures data.id !in old(membres) ==>
        && r == Success(Membre(data.id, data.nom, ETAT_INITIAL))
        && membres == old(membres)[data.id := r.value]
    {
      if data.id in membres {
        r := Failure(ERREUR_DOUBLON);
      } else {
        var m := Membre(data.id, data.nom, ETAT_INITIAL);
        membres := membres[data.id := m];
        r := Success(m);
      }
    }

    /**
     * `POST /membres/{id}/etat`: records the state and delivers the pending
     * messages addressed to the member whose trigger the state releases.
     * An unknown member fails with 404 and changes nothing. `reload` says
     * whether the `{"type": "reload"}` event is pushed to the member.
     */
    method ChangerEtat(membreId: string, data: MembreEtat, maintenant: string)
      returns (r: Result<EtatChange, Erreur>, reload: bool)
      requires Valid()
      modifies this
      ensures Valid()
      ensures membreId !in old(membres) ==>
        && r == Failure(ERREUR_INCONNU)
        && membres == old(membres) && messages == old(messages)
      ensures membreId in old(membres) ==>
        && membres == old(membres)[membreId := old(membres)[membreId].(etat := data.etat)]
        && r.Success? && r.value.etat == data.etat
      ensures membreId in old(membres) && TriggerLibere(data.etat).None? ==>
        messages == old(messages) && r.value.messagesLivres == 0
      ensures membreId in old(membres) && TriggerLibere(data.etat).Some? ==>
        var t := TriggerLibere(data.etat).value;
        && messages == Livrer(old(messages), membreId, t, maintenant)
        && r.value.messagesLivres == NombreALivrer(old(messages), membreId, t)
      ensures reload <==> r.Success? && r.value.messagesLivres > 0
    {
      if membreId !in membres {
        return Failure(ERREUR_INCONNU), false;
      }
      membres := membres[membreId := membres[membreId].(etat := data.etat)];
      var trigger := TriggerLibere(data.etat);
      var livres := 0;
      if trigger.Some? {
        LivrerCoherent(messages, membreId, trigger.value, maintenant);
        livres := NombreALivrer(messages, membreId, trigger.value);
        messages := Livrer(messages, membreId, trigger.value, maintenant);
      }
      r := Success(EtatChange(data.etat, livres));
      reload := livres > 0 && trigger.Some?;
    }

    /**
     * `POST /messages`: appends the new row; the same record is returned
     * and pushed to the recipient.
     */
    method EnvoyerMessage(data: MessageEnvoi, id: string, maintenant: string) returns (m: Message)
      requires Valid()
      modifies this
      ensures Valid() && membres == old(membres)
      ensures m == NouveauMessage(data, id, maintenant)
      ensures messages == old(messages) + [m]
    {
      m := NouveauMessage(data, id, maintenant);
      messages := messages + [m];
    }

    /**
     * `GET /messages/{id}?tous=...`: the stored rows the member may see,
     * ordered by send time; never a pending message from someone else.
     */
    function GetMessages(qui: string, tous: bool): (r: seq<Message>)
      reads this
      ensures TrieParEnvoi(r)
      ensures forall x :: x in r <==> x in messages && Visible(x, qui, tous)
      ensures forall x :: x in r && x.expediteurId != qui ==> x.destinataireId == qui && x.statut == Livre
    {
      RequeteSansAttente(messages, qui, tous);
      Requete(messages, qui, tous)
    }
  }

  /** Sending the same state twice: the second call delivers nothing. */
  method ChangerEtatDeuxFois(s: Serveur, membreId: string, etat: string, t1: string, t2: string)
    returns (premier: Result<EtatChange, Erreur>, second: Result<EtatChange, Erreur>)
    requires s.Valid()
    modifies s
    ensures s.Valid()
    ensures second.Success? <==> premier.Success?
    ensures second.Success? ==> second.value.messagesLivres == 0
  {
    var reload;
    premier, reload := s.ChangerEtat(membreId, MembreEtat(etat), t1);
    second, reload := s.ChangerEtat(membreId, MembreEtat(etat), t2);
    if second.Success? && TriggerLibere(etat).Some? {
      LivrerIdempotent(old(s.messages), membreId, TriggerLibere(etat).value, t1, t2);
    }
  }
}
