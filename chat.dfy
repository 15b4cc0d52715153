/**
 * The client's chat screen (mobile/src/screens/ChatScreen.js): how the
 * message list is rebuilt from snapshots and merged with pushed messages,
 * how day separators are inserted, the fallback poll timer, and the send
 * guard. React state is the fields of `Ecran`; network answers are
 * parameters of the methods that receive them.
 */
module Chat {
  import opened Wrappers
  import opened Models
  import opened Texte
  import opened Listes
  import Triggers
  import Etats

  /** A message as the list holds it, built by `adapterMessage`. */
  datatype MessageClient = MessageClient(
    id: string,
    sender: string,
    text: string,
    sentAt: Option<string>,
    deliveredAt: Option<string>,
    trigger: string,
    statut: Statut,
    isMe: bool)

  /** An entry of the rendered list: a day separator, or a message tagged `type: 'message'`. */
  datatype Element = Separateur(id: string, sentAt: string) | ElementMessage(message: MessageClient)

  /** A WebSocket event: `{type: 'reload'}`, or a message record. */
  datatype Evenement = Recharger | Pousse(message: Message)

  /** JavaScript truthiness of a string that may be missing. */
  predicate Vrai(s: Option<string>) {
    s.Some? && s.value != ""
  }

  /** `s.split('T')[0]`: the text before the first `T` (all of `s` when it has none). */
  function DatePartie(s: string): (d: string)
    ensures 'T' !in d && d <= s
    ensures 'T' in s ==> |d| < |s| && s[|d|] == 'T'
    ensures 'T' !in s ==> d == s
  {
    var parts := Split(s, 'T');
    assert |parts| > 1 ==> s == parts[0] + ['T'] + Join(parts[1..], 'T');
    parts[0]
  }

  lemma DatePartieAvant(d: string, reste: string)
    requires 'T' !in d
    ensures DatePartie(d + "T" + reste) == d
  {
    SplitAt(d, 'T', reste);
  }

  // ------------------------------------------------------ parseDateLocale

  /**
   * What `parseDateLocale` yields: `null`, a `Date` built from NaN, or the
   * arguments `(year, monthIndex, day)` passed to the `Date` constructor.
   */
  datatype DateLocale = Nulle | Invalide | Jour(annee: int, moisIndex: int, jour: int)

  function ParseDateLocale(iso: Option<string>): (d: DateLocale)
    ensures d.Nulle? <==> !Vrai(iso)
  {
    if !Vrai(iso) then Nulle else JourDe(Split(DatePartie(iso.value), '-'))
  }

  /** The year, month and day fields of a split date; anything short or non-numeric is invalid. */
  function JourDe(champs: seq<string>): (d: DateLocale)
    ensures !d.Nulle?
    ensures |champs| < 3 ==> d == Invalide
  {
    if |champs| < 3 then Invalide
    else
      var a, m, j := Number(champs[0]), Number(champs[1]), Number(champs[2]);
      if a.Some? && m.Some? && j.Some? then Jour(a.value, m.value as int - 1, j.value) else Invalide
  }

  /**
   * A timestamp written `Y-M-D` then `T`, with digit fields that may carry
   * leading zeros, reads back as year Y, month index M - 1, day D.
   */
  lemma ParseDateLocaleIso(da: string, dm: string, dj: string, heure: string)
    requires AllDigits(da) && AllDigits(dm) && AllDigits(dj)
    ensures ParseDateLocale(Some(da + "-" + dm + "-" + dj + "T" + heure))
         == Jour(DigitsValue(da), DigitsValue(dm) - 1, DigitsValue(dj))
  {
    DateIso(da, dm, dj, heure);
    ParseChamps(da + "-" + dm + "-" + dj + "T" + heure, da, dm, dj);
  }

  /** A timestamp whose date part splits into three digit fields reads as their values. */
  lemma ParseChamps(iso: string, da: string, dm: string, dj: string)
    requires iso != "" && Split(DatePartie(iso), '-') == [da, dm, dj]
    requires AllDigits(da) && AllDigits(dm) && AllDigits(dj)
    ensures ParseDateLocale(Some(iso)) == Jour(DigitsValue(da), DigitsValue(dm) - 1, DigitsValue(dj))
  {
    ParseVia(iso);
    assert ParseDateLocale(Some(iso)) == JourDe([da, dm, dj]);
    NumberAllDigits(da);
    NumberAllDigits(dm);
    NumberAllDigits(dj);
    JourDeTrois(da, dm, dj);
  }

  /** A send time as the server writes it, with zero-padded month and day. */
  lemma ParseDateLocaleExemple()
    ensures ParseDateLocale(Some("2026-02-27T15:00:00")) == Jour(2026, 1, 27)
  {
    LectureExemple("2026-02-27T15:00:00");
  }

  lemma LectureExemple(iso: string)
    requires iso == "2026" + "-" + "02" + "-" + "27" + "T" + "15:00:00"
    ensures ParseDateLocale(Some(iso)) == Jour(2026, 1, 27)
  {
    ChampsExemple();
    ParseDateLocaleIso("2026", "02", "27", "15:00:00");
  }

  lemma ChampsExemple()
    ensures AllDigits("2026") && AllDigits("02") && AllDigits("27")
    ensures DigitsValue("2026") == 2026 && DigitsValue("02") == 2 && DigitsValue("27") == 27
  {
    assert "2026"[..3] == "202" && "202"[..2] == "20" && "20"[..1] == "2" && "2"[..0] == "";
    assert "02"[..1] == "0" && "0"[..0] == "";
    assert "27"[..1] == "2";
  }

  lemma ParseVia(iso: string)
    requires iso != ""
    ensures ParseDateLocale(Some(iso)) == JourDe(Split(DatePartie(iso), '-'))
  {
  }

  lemma JourDeTrois(da: string, dm: string, dj: string)
    requires Number(da).Some? && Number(dm).Some? && Number(dj).Some?
    ensures JourDe([da, dm, dj]) == Jour(Number(da).value, Number(dm).value as int - 1, Number(dj).value)
  {
    var champs := [da, dm, dj];
    assert champs[0] == da && champs[1] == dm && champs[2] == dj;
  }

  lemma DateIso(da: string, dm: string, dj: string, heure: string)
    requires AllDigits(da) && AllDigits(dm) && AllDigits(dj)
    ensures Split(DatePartie(da + "-" + dm + "-" + dj + "T" + heure), '-') == [da, dm, dj]
  {
    SansChiffre(da, 'T'); SansChiffre(dm, 'T'); SansChiffre(dj, 'T');
    SansChiffre(da, '-'); SansChiffre(dm, '-'); SansChiffre(dj, '-');
    var date := da + "-" + dm + "-" + dj;
    assert 'T' !in date;
    DatePartieAvant(date, heure);
    JoinTrois(da, dm, dj, '-');
    SplitJoin([da, dm, dj], '-');
  }

  lemma SansChiffre(s: string, ch: char)
    requires AllDigits(s) && !IsDigit(ch)
    ensures ch !in s
  {
    assert forall k :: 0 <= k < |s| ==> IsDigit(s[k]);
  }

  lemma JoinTrois(x: string, y: string, z: string, c: char)
    ensures Join([x, y, z], c) == x + [c] + y + [c] + z
  {
    var parts := [x, y, z];
    assert parts[1..] == [y, z] && parts[1..][1..] == [z];
    assert Join([z], c) == z;
    assert Join([y, z], c) == y + [c] + z;
    assert Join(parts, c) == x + [c] + (y + [c] + z);
  }

  // --------------------------------------------------- ajouterSeparateurs

  /** The day a message is grouped under: the non-empty text before `T` of a present `sentAt`. */
  function DateDe(m: MessageClient): Option<string> {
    if Vrai(m.sentAt) && DatePartie(m.sentAt.value) != "" then Some(DatePartie(m.sentAt.value)) else None
  }

  /** The day of the last dated message; undated messages are skipped. */
  function DerniereDate(msgs: seq<MessageClient>): Option<string> {
    if msgs == [] then None
    else if DateDe(msgs[|msgs| - 1]).Some? then DateDe(msgs[|msgs| - 1])
    else DerniereDate(msgs[..|msgs| - 1])
  }

  /** Message `i` opens a new day: it is dated and its day differs from the last dated one before it. */
  predicate AvecSeparateur(msgs: seq<MessageClient>, i: nat)
    requires i < |msgs|
  {
    DateDe(msgs[i]).Some? && DateDe(msgs[i]) != DerniereDate(msgs[..i])
  }

  /** Message `i` with the separator that precedes it, if any. */
  function Bloc(msgs: seq<MessageClient>, i: nat): seq<Element>
    requires i < |msgs|
  {
    (if AvecSeparateur(msgs, i) then [Separateur("sep-" + msgs[i].id, msgs[i].sentAt.value)] else [])
    + [ElementMessage(msgs[i])]
  }

  /** The rendered list for the first `n` messages: their blocks, in order. */
  function Separes(msgs: seq<MessageClient>, n: nat): seq<Element>
    requires n <= |msgs|
  {
    if n == 0 then [] else Separes(msgs, n - 1) + Bloc(msgs, n - 1)
  }

  /** `ajouterSeparateurs`: the loop that tracks the last day seen. */
  method AjouterSeparateurs(msgs: seq<MessageClient>) returns (result: seq<Element>)
    ensures result == Separes(msgs, |msgs|)
  {
    result := [];
    var derniereDate: Option<string> := None;
    for i := 0 to |msgs|
      invariant result == Separes(msgs, i)
      invariant derniereDate == DerniereDate(msgs[..i])
    {
      var msg := msgs[i];
      var dateStr: Option<string> := if Vrai(msg.sentAt) then Some(DatePartie(msg.sentAt.value)) else None;
      EtapeSeparateur(msgs, i, dateStr);
      var bloc: seq<Element> := [];
      if Vrai(dateStr) && dateStr != derniereDate {
        bloc := [Separateur("sep-" + msg.id, msg.sentAt.value)];
        derniereDate := dateStr;
      }
      bloc := bloc + [ElementMessage(msg)];
      assert bloc == Bloc(msgs, i);
      result := result + bloc;
    }
  }

  /** One step of the loop: the day it computes, and the tracked day afterwards. */
  lemma EtapeSeparateur(msgs: seq<MessageClient>, i: nat, dateStr: Option<string>)
    requires i < |msgs|
    requires dateStr == if Vrai(msgs[i].sentAt) then Some(DatePartie(msgs[i].sentAt.value)) else None
    ensures Vrai(dateStr) <==> DateDe(msgs[i]).Some?
    ensures Vrai(dateStr) ==> dateStr == DateDe(msgs[i])
    ensures AvecSeparateur(msgs, i) <==> Vrai(dateStr) && dateStr != DerniereDate(msgs[..i])
    ensures DerniereDate(msgs[..i + 1]) == if Vrai(dateStr) then dateStr else DerniereDate(msgs[..i])
    ensures Separes(msgs, i + 1) == Separes(msgs, i) + Bloc(msgs, i)
  {
    assert msgs[..i + 1][..i] == msgs[..i];
  }

  /** The messages of a rendered list, separators filtered out. */
  function MessagesDe(items: seq<Element>): seq<MessageClient> {
    if items == [] then []
    else
      var last := items[|items| - 1];
      MessagesDe(items[..|items| - 1]) + (if last.ElementMessage? then [last.message] else [])
  }

  function NombreSeparateurs(items: seq<Element>): nat {
    if items == [] then 0
    else
      var last := items[|items| - 1];
      NombreSeparateurs(items[..|items| - 1]) + (if last.Separateur? then 1 else 0)
  }

  lemma {:induction false} MessagesDeConcat(a: seq<Element>, b: seq<Element>)
    ensures MessagesDe(a + b) == MessagesDe(a) + MessagesDe(b)
    ensures NombreSeparateurs(a + b) == NombreSeparateurs(a) + NombreSeparateurs(b)
    decreases |b|
  {
    if b == [] {
      assert a + b == a;
    } else {
      var b' := b[..|b| - 1];
      assert (a + b)[..|a + b| - 1] == a + b';
      MessagesDeConcat(a, b');
    }
  }

  lemma Singleton(x: Element)
    ensures MessagesDe([x]) == if x.ElementMessage? then [x.message] else []
    ensures NombreSeparateurs([x]) == if x.Separateur? then 1 else 0
  {
    assert [x][..0] == [];
  }

  lemma BlocMessages(msgs: seq<MessageClient>, i: nat)
    requires i < |msgs|
    ensures MessagesDe(Bloc(msgs, i)) == [msgs[i]]
    ensures NombreSeparateurs(Bloc(msgs, i)) == if AvecSeparateur(msgs, i) then 1 else 0
    ensures |Bloc(msgs, i)| == 1 + NombreSeparateurs(Bloc(msgs, i))
  {
    var e := ElementMessage(msgs[i]);
    Singleton(e);
    if AvecSeparateur(msgs, i) {
      var sep := Separateur("sep-" + msgs[i].id, msgs[i].sentAt.value);
      assert Bloc(msgs, i) == [sep] + [e];
      Singleton(sep);
      MessagesDeConcat([sep], [e]);
    } else {
      assert Bloc(msgs, i) == [e];
    }
  }

  /**
   * Separators only add to the list: removing them gives back every input
   * message in order, and there are at most as many separators as messages.
   */
  lemma {:induction false} SeparesMessages(msgs: seq<MessageClient>, n: nat)
    requires n <= |msgs|
    ensures MessagesDe(Separes(msgs, n)) == msgs[..n]
    ensures NombreSeparateurs(Separes(msgs, n)) <= n
    ensures |Separes(msgs, n)| == n + NombreSeparateurs(Separes(msgs, n))
  {
    if n > 0 {
      SeparesMessages(msgs, n - 1);
      SeparesEtape(msgs, n);
    }
  }

  /** The induction step of `SeparesMessages`: one more message, one more block. */
  lemma SeparesEtape(msgs: seq<MessageClient>, n: nat)
    requires 0 < n <= |msgs|
    requires MessagesDe(Separes(msgs, n - 1)) == msgs[..n - 1]
    requires NombreSeparateurs(Separes(msgs, n - 1)) <= n - 1
    requires |Separes(msgs, n - 1)| == n - 1 + NombreSeparateurs(Separes(msgs, n - 1))
    ensures MessagesDe(Separes(msgs, n)) == msgs[..n]
    ensures NombreSeparateurs(Separes(msgs, n)) <= n
    ensures |Separes(msgs, n)| == n + NombreSeparateurs(Separes(msgs, n))
  {
    var p, b := Separes(msgs, n - 1), Bloc(msgs, n - 1);
    BlocMessages(msgs, n - 1);
    var pre, m := msgs[..n - 1], msgs[n - 1];
    assert msgs[..n] == pre + [m];
    AjoutBloc(Separes(msgs, n), p, b, pre, m);
  }

  /** Appending one message's block to a rendered list of `pre`. */
  lemma AjoutBloc(r: seq<Element>, p: seq<Element>, b: seq<Element>, pre: seq<MessageClient>, m: MessageClient)
    requires r == p + b
    requires MessagesDe(p) == pre && |p| == |pre| + NombreSeparateurs(p) && NombreSeparateurs(p) <= |pre|
    requires MessagesDe(b) == [m] && |b| == 1 + NombreSeparateurs(b) && NombreSeparateurs(b) <= 1
    ensures MessagesDe(r) == pre + [m]
    ensures |r| == |pre| + 1 + NombreSeparateurs(r) && NombreSeparateurs(r) <= |pre| + 1
  {
    MessagesDeConcat(p, b);
  }

  /**
   * Every separator stands immediately before the message it was made for:
   * id `sep-<message id>`, carrying that message's `sentAt`.
   */
  lemma {:induction false} SeparateurSuivi(msgs: seq<MessageClient>, n: nat)
    requires n <= |msgs|
    ensures n > 0 ==> Separes(msgs, n)[|Separes(msgs, n)| - 1] == ElementMessage(msgs[n - 1])
    ensures forall k :: 0 <= k < |Separes(msgs, n)| && Separes(msgs, n)[k].Separateur? ==>
      SeparateurAvant(Separes(msgs, n), k)
  {
    if n > 0 {
      SeparateurSuivi(msgs, n - 1);
      var p, b := Separes(msgs, n - 1), Bloc(msgs, n - 1);
      var r := p + b;
      assert r == Separes(msgs, n);
      forall k | 0 <= k < |r| && r[k].Separateur? ensures SeparateurAvant(r, k) {
        if k < |p| {
          assert r[k] == p[k];
          if k + 1 == |p| {
            assert false;
          }
          assert r[k + 1] == p[k + 1];
          assert SeparateurAvant(p, k);
        } else {
          assert r[k] == b[k - |p|];
          assert AvecSeparateur(msgs, n - 1) && k == |p|;
          assert r[k + 1] == b[1];
        }
      }
    }
  }

  /** Entry `k` is a separator made for the message right after it. */
  predicate SeparateurAvant(r: seq<Element>, k: nat)
    requires k < |r| && r[k].Separateur?
  {
    && k + 1 < |r| && r[k + 1].ElementMessage?
    && r[k].id == "sep-" + r[k + 1].message.id
    && r[k + 1].message.sentAt == Some(r[k].sentAt)
  }

  /** A message without a usable `sentAt` gets no separator and leaves the tracked day alone. */
  lemma SansDate(msgs: seq<MessageClient>, i: nat)
    requires i < |msgs| && DateDe(msgs[i]).None?
    ensures !AvecSeparateur(msgs, i)
    ensures DerniereDate(msgs[..i + 1]) == DerniereDate(msgs[..i])
  {
    assert msgs[..i + 1][..i] == msgs[..i];
  }

  // ------------------------------------------------ snapshots and pushes

  /** `adapterMessage`: the server record in the client's field names; `isMe` marks one's own messages. */
  function AdapterMessage(m: Message, monId: string): (c: MessageClient)
    ensures c.isMe <==> m.expediteurId == monId
    ensures c.id == m.id && c.statut == m.statut && c.trigger == m.trigger
    ensures c.sentAt == Some(m.envoyeA) && c.deliveredAt == m.livreA
    ensures c.sender == m.expediteurId && c.text == m.texte
  {
    MessageClient(m.id, m.expediteurId, m.texte, Some(m.envoyeA), m.livreA, m.trigger, m.statut,
                  m.expediteurId == monId)
  }

  /** `data.map(adapterMessage)`: one entry per record, in snapshot order. */
  function Snapshot(data: seq<Message>, monId: string): (l: seq<MessageClient>)
    ensures |l| == |data|
    ensures forall i :: 0 <= i < |data| ==> l[i] == AdapterMessage(data[i], monId)
  {
    seq(|data|, i requires 0 <= i < |data| => AdapterMessage(data[i], monId))
  }

  predicate IdsDistincts(l: seq<MessageClient>) {
    forall i, j :: 0 <= i < j < |l| ==> l[i].id != l[j].id
  }

  /** `prev.some(m => m.id === id)`. */
  function ContientId(l: seq<MessageClient>, id: string): (b: bool)
    ensures b <==> exists i :: 0 <= i < |l| && l[i].id == id
  {
    Exists(l, (x: MessageClient) => x.id == id)
  }

  /**
   * The `ws.onmessage` updater: a pending record is dropped, a known id is
   * ignored, anything else is appended after the untouched list.
   */
  function FusionnerPousse(prev: seq<MessageClient>, data: Message, monId: string): (l: seq<MessageClient>)
    ensures data.statut == EnAttente ==> l == prev
    ensures (exists i :: 0 <= i < |prev| && prev[i].id == data.id) ==> l == prev
    ensures data.statut != EnAttente && (forall i :: 0 <= i < |prev| ==> prev[i].id != data.id) ==>
      l == prev + [AdapterMessage(data, monId)]
  {
    if data.statut == EnAttente then prev
    else if ContientId(prev, data.id) then prev
    else prev + [AdapterMessage(data, monId)]
  }

  /** Merging a push keeps the ids of the list distinct and its entries in place. */
  lemma FusionIdsDistincts(prev: seq<MessageClient>, data: Message, monId: string)
    requires IdsDistincts(prev)
    ensures IdsDistincts(FusionnerPousse(prev, data, monId))
    ensures prev <= FusionnerPousse(prev, data, monId)
    ensures |FusionnerPousse(prev, data, monId)| <= |prev| + 1
  {
  }

  /** The merge is idempotent: receiving the same push twice is receiving it once. */
  lemma FusionIdempotente(prev: seq<MessageClient>, data: Message, monId: string)
    ensures FusionnerPousse(FusionnerPousse(prev, data, monId), data, monId) == FusionnerPousse(prev, data, monId)
  {
    var l := FusionnerPousse(prev, data, monId);
    if data.statut != EnAttente && !ContientId(prev, data.id) {
      assert l[|prev|].id == data.id;
    }
  }

  /** A snapshot of records with distinct ids gives a list with distinct ids. */
  lemma SnapshotIdsDistincts(data: seq<Message>, monId: string)
    requires forall i, j :: 0 <= i < j < |data| ==> data[i].id != data[j].id
    ensures IdsDistincts(Snapshot(data, monId))
  {
  }

  // ------------------------------------------------------------- sending

  /** The `envoyerMessage` guard: some non-blank text and a chosen recipient. */
  function PeutEnvoyer(input: string, destinataireId: Option<string>): (b: bool)
    ensures b <==> !Blank(input) && Vrai(destinataireId)
  {
    Trim(input) != "" && Vrai(destinataireId)
  }

  /** `membres.filter(m => m.id !== MON_ID)`. */
  function AutresMembres(membres: seq<Membre>, monId: string): (r: seq<Membre>)
    ensures forall m :: m in r <==> m in membres && m.id != monId
    ensures forall m :: multiset(r)[m] == if m.id != monId then multiset(membres)[m] else 0
  {
    Filter(membres, (m: Membre) => m.id != monId)
  }

  /**
   * `filter` keeps the members' order: the others among `a + b` are the
   * others among `a` followed by the others among `b`, and a single member
   * is kept exactly when it is not oneself.
   */
  lemma AutresMembresOrdre(a: seq<Membre>, b: seq<Membre>, m: Membre, monId: string)
    ensures AutresMembres(a + b, monId) == AutresMembres(a, monId) + AutresMembres(b, monId)
    ensures AutresMembres([m], monId) == if m.id != monId then [m] else []
  {
    FilterConcat(a, b, (x: Membre) => x.id != monId);
    FilterUn(m, (x: Membre) => x.id != monId);
  }

  /**
   * The recipient effect: with no recipient chosen, the first other member
   * of the list becomes the recipient; the choice is never oneself.
   */
  function DestinataireParDefaut(actuel: Option<string>, membres: seq<Membre>, monId: string): (r: Option<string>)
    ensures Vrai(actuel) ==> r == actuel
    ensures !Vrai(actuel) ==>
      var premier := Find(membres, (m: Membre) => m.id != monId);
      r == if premier.Some? then Some(premier.value.id) else actuel
    ensures r != actuel ==> r.Some? && r.value != monId
  {
    var autres := AutresMembres(membres, monId);
    FilterHeadIsFind(membres, (m: Membre) => m.id != monId);
    if |autres| > 0 && !Vrai(actuel) then Some(autres[0].id) else actuel
  }

  /** The notification filter of `handleChangerEtat`, as written. */
  function AAnnoncer(messages: seq<MessageClient>): (r: seq<MessageClient>)
    ensures forall m :: m in r <==> m in messages && m.statut == EnAttente && !m.isMe
  {
    Filter(messages, (m: MessageClient) => m.statut == EnAttente && !m.isMe)
  }

  /**
   * The notifications the state change evidently means to show: the
   * entries of the refreshed list that come from someone else, are
   * delivered, and were not in the list before the call.
   */
  function NotificationsLivrees(avant: seq<MessageClient>, apres: seq<MessageClient>): (r: seq<MessageClient>)
    ensures forall m :: m in r <==> m in apres && !m.isMe && m.statut == Livre && !ContientId(avant, m.id)
  {
    Filter(apres, (m: MessageClient) => !m.isMe && m.statut == Livre && !ContientId(avant, m.id))
  }

  // -------------------------------------------------------- screen state

  /**
   * The screen's state. `intervalle` is the effect's timer variable and
   * `minuteries` the fallback intervals alive in the runtime; `armees`
   * counts the `setInterval` calls made.
   */
  class Ecran {
    const monId: string
    var messages: seq<MessageClient>
    var chargement: bool
    var input: string
    var trigger: string
    var etat: string
    var membres: seq<Membre>
    var destinataireId: Option<string>
    var intervalle: Option<nat>
    var minuteries: set<nat>
    var wsOuvert: bool
    ghost var armees: nat

    /** At most one interval is ever armed, and only the one `intervalle` names can be alive. */
    ghost predicate Valid()
      reads this
    {
      && armees <= 1
      && (intervalle.Some? <==> armees == 1)
      && (intervalle.None? ==> minuteries == {})
      && (intervalle.Some? ==> minuteries <= {intervalle.value})
    }

    /** The initial React state, and the effect opening the socket. */
    constructor (monId: string)
      ensures Valid() && this.monId == monId
      ensures messages == [] && chargement && input == ""
      ensures trigger == Triggers.TRIGGER_DEFAUT && etat == Etats.ETAT_DEFAUT
      ensures membres == [] && destinataireId == None
      ensures intervalle == None && minuteries == {} && armees == 0 && wsOuvert
    {
      this.monId := monId;
      messages, chargement, input := [], true, "";
      trigger, etat := Triggers.TRIGGER_DEFAUT, Etats.ETAT_DEFAUT;
      membres, destinataireId := [], None;
      intervalle, minuteries, armees, wsOuvert := None, {}, 0, true;
    }

    /** `ws.onmessage`; `recharger` says that a snapshot fetch is started. */
    method RecevoirEvenement(ev: Evenement) returns (recharger: bool)
      modifies this`messages
      ensures ev.Recharger? ==> recharger && messages == old(messages)
      ensures ev.Pousse? ==> !recharger && messages == FusionnerPousse(old(messages), ev.message, monId)
    {
      match ev
      case Recharger =>
        recharger := true;
      case Pousse(data) =>
        recharger := false;
        messages := FusionnerPousse(messages, data, monId);
    }

    /** `rafraichirMessages` once the fetch settles: a snapshot replaces the list; a failure keeps it. */
    method RafraichirMessages(reponse: Option<seq<Message>>)
      modifies this`messages
      ensures reponse.Some? ==> messages == Snapshot(reponse.value, monId)
      ensures reponse.None? ==> messages == old(messages)
    {
      if reponse.Some? {
        messages := Snapshot(reponse.value, monId);
      }
    }

    /** `chargerMessages`: the same replacement, and the spinner is off afterwards. */
    method ChargerMessages(reponse: Option<seq<Message>>)
      modifies this`messages, this`chargement
      ensures !chargement
      ensures reponse.Some? ==> messages == Snapshot(reponse.value, monId)
      ensures reponse.None? ==> messages == old(messages)
    {
      chargement := true;
      RafraichirMessages(reponse);
      chargement := false;
    }

    /** `ws.onerror`: arms the 5-second poll with handle `h`, unless one is armed already. */
    method SurErreur(h: nat)
      requires Valid()
      modifies this`intervalle, this`minuteries, this`armees
      ensures Valid()
      ensures old(intervalle).Some? ==>
        intervalle == old(intervalle) && minuteries == old(minuteries) && armees == old(armees)
      ensures old(intervalle).None? ==> intervalle == Some(h) && minuteries == {h}
    {
      if intervalle.None? {
        intervalle := Some(h);
        minuteries := minuteries + {h};
        armees := armees + 1;
      }
    }

    /** The effect's cleanup: closes the socket and clears the armed interval. */
    method Demonter()
      requires Valid()
      modifies this`wsOuvert, this`minuteries
      ensures Valid() && !wsOuvert && minuteries == {} && intervalle == old(intervalle)
    {
      wsOuvert := false;
      if intervalle.Some? {
        minuteries := minuteries - {intervalle.value};
      }
    }

    /** `chargerMembres`, then the effect that picks a default recipient. */
    method ChargerMembres(reponse: Option<seq<Membre>>)
      modifies this`membres, this`destinataireId
      ensures reponse.None? ==> membres == old(membres) && destinataireId == old(destinataireId)
      ensures reponse.Some? ==>
        membres == reponse.value
        && destinataireId == DestinataireParDefaut(old(destinataireId), reponse.value, monId)
    {
      if reponse.Some? {
        membres := reponse.value;
        destinataireId := DestinataireParDefaut(destinataireId, membres, monId);
      }
    }

    /**
     * `envoyerMessage`: without text or recipient nothing happens; otherwise
     * the input is cleared, the trigger reset, and the request carries the
     * text as typed and the trigger chosen before the reset.
     */
    method EnvoyerMessage() returns (envoi: Option<MessageEnvoi>)
      modifies this`input, this`trigger
      ensures envoi.None? <==> !PeutEnvoyer(old(input), destinataireId)
      ensures envoi.None? ==> input == old(input) && trigger == old(trigger)
      ensures envoi.Some? ==>
        && envoi.value == MessageEnvoi(monId, destinataireId.value, old(input), old(trigger))
        && input == "" && trigger == Triggers.TRIGGER_DEFAUT
    {
      if !PeutEnvoyer(input, destinataireId) {
        return None;
      }
      var texte := input;
      input := "";
      var choisi := trigger;
      trigger := Triggers.TRIGGER_DEFAUT;
      envoi := Some(MessageEnvoi(monId, destinataireId.value, texte, choisi));
    }

    /**
     * `handleChangerEtat` as written: the state is shown at once; when the
     * server call succeeds the list is refreshed, and if messages were
     * delivered the filter `AAnnoncer` runs over the list the handler saw
     * before the refresh.
     */
    method ChangerEtat(nouvelEtat: string, livres: Option<nat>, snapshot: Option<seq<Message>>)
      returns (notifications: seq<MessageClient>)
      modifies this`etat, this`messages
      ensures etat == nouvelEtat
      ensures livres.None? ==> messages == old(messages)
      ensures livres.Some? && snapshot.Some? ==> messages == Snapshot(snapshot.value, monId)
      ensures livres.Some? && snapshot.None? ==> messages == old(messages)
      ensures notifications ==
        if livres.Some? && livres.value > 0 then AAnnoncer(old(messages)) else []
    {
      etat := nouvelEtat;
      notifications := [];
      if livres.Some? {
        var avant := messages;
        RafraichirMessages(snapshot);
        if livres.value > 0 {
          notifications := AAnnoncer(avant);
        }
      }
    }

    /**
     * The handler as evidently intended: the same state change and refresh,
     * but the notifications are the delivered messages from others that the
     * refresh brought in.
     */
    method ChangerEtatCorrige(nouvelEtat: string, livres: Option<nat>, snapshot: Option<seq<Message>>)
      returns (notifications: seq<MessageClient>)
      modifies this`etat, this`messages
      ensures etat == nouvelEtat
      ensures livres.None? ==> messages == old(messages)
      ensures livres.Some? && snapshot.Some? ==> messages == Snapshot(snapshot.value, monId)
      ensures livres.Some? && snapshot.None? ==> messages == old(messages)
      ensures notifications ==
        if livres.Some? && livres.value > 0 then NotificationsLivrees(old(messages), messages) else []
    {
      etat := nouvelEtat;
      notifications := [];
      if livres.Some? {
        var avant := messages;
        RafraichirMessages(snapshot);
        if livres.value > 0 {
          notifications := NotificationsLivrees(avant, messages);
        }
      }
    }
  }
}
