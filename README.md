# Deferred family messages — a Dafny model

The application lets family members send each other messages that are
delivered "now" or only when the recipient changes state. A state is
`au_travail`, `en_route` or `a_la_maison`. Leaving work releases the
messages marked `depart_travail`. Arriving home releases those marked
`arrivee_maison`.

This project models three connected pieces and proves what each one
promises:

* **The server** (`backend/main.py`). It keeps two tables: members and messages.
  - Creating a message makes it `livre` (delivered) at once when its trigger is `maintenant`. Otherwise it is `en_attente` (pending).
  - A state change delivers exactly the pending messages addressed to that member whose trigger the new state releases. It reports how many it delivered.
  - The message query shows a member their own messages and the delivered messages addressed to them, ordered by send time.
  - The tables are the fields of the class `Backend.Serveur`. The bulk `UPDATE` is the function `Livrer`. `ORDER BY envoye_a` is a sorted permutation under SQLite's default (code-point) text order; the calls in main.py are sqlite3's (`?` placeholders, `rowcount`, `commit`).
* **The chat screen** (`mobile/src/screens/ChatScreen.js`). It models:
  - how a snapshot replaces the message list;
  - how a pushed message is merged into it;
  - the loop that inserts day separators;
  - the fallback poll timer, which is armed once and cleared on teardown;
  - the send guard, and the choice of a default recipient.

  The React state lives in the class `Chat.Ecran`. Each server answer is a method parameter.
* **The message bubble** (`mobile/src/components/MessageBubble.js`). It models:
  - the trigger lookup;
  - the `HH:MM` extraction;
  - which parts of the bubble a status turns on: sender name, trigger badge, footer, and edit/cancel buttons.

The constant tables (`etats.js`, `triggers.js`) and the record shapes
(`backend/models.py`) are modules of their own. `Coherence` relates the
pieces:
* the client's and the server's trigger maps are equal;
* what the server stores is what the list and the bubble show;
* the list never holds a pending message from someone else.

The behaviour of `handleChangerEtat`'s notification filter follows from that
last fact (see Findings).

Modules: `Wrappers` (Option, Result), `Texte` (JavaScript/SQL string
primitives: `split`, `trim`, `Number` on digit strings, text order), `Listes`
(`find`, `findIndex`, `some`, `filter`), `Models`, `Etats`, `Triggers`,
`Backend`, `Chat`, `Bulle`, `Coherence`.

Where the code and the documented design disagree, the model follows the code:
* A deferred message is still pushed over the WebSocket to its recipient at creation (backend/main.py:231). It is the client that drops it (ChatScreen.js:82).
* The fallback poll is never cancelled while the screen is open. No reconnection is attempted, so the timer runs until teardown.
* Edit and cancel transitions do not exist in the code. `annule` is only a status value that the bubble can display.
* The `etat` of a state change is free text (backend/models.py:15 only comments the three values). An unknown state is recorded and releases nothing.

## Model

| member | source | states |
|---|---|---|
| Backend.TriggerLibere | backend/main.py:26-29 | `en_route` releases exactly `depart_travail` and `a_la_maison` exactly `arrivee_maison`; every other state releases nothing; `maintenant` is never released |
| Backend.NouveauMessage | backend/main.py:203-214 | the inserted row copies the request and stamps the send time; it is `livre` exactly when the trigger is `maintenant` (then `livre_a = envoye_a`), otherwise pending with no `livre_a`; never `annule`; the row invariant holds |
| Backend.Livrer | backend/main.py:155-164 | row by row: the rows addressed to the member, with the released trigger and still pending, become `livre` at `maintenant`; every other row is unchanged; same length |
| Backend.LivrerCompte | backend/main.py:157-165 | the reported `rowcount` equals the number of rows the update actually changed |
| Backend.LivrerIdempotent | backend/main.py:158-162 | delivering again (at any later time) finds 0 rows and changes nothing, because delivered rows fail the pending guard |
| Backend.LivrerCoherent | backend/main.py:158-159 | delivery preserves "`statut = livre` ⇔ `livre_a` set" on every row |
| Backend.Requete | backend/main.py:240-256 | the query result is sorted by `envoye_a` and holds each row as often as stored if it is visible (own message, or delivered to the member; only the latter without `tous`) and never otherwise |
| Backend.RequeteSansAttente | backend/main.py:240-256 | a member never reads a pending message from someone else; membership in the result is exactly "stored and visible" |
| Backend.RequeteRecusIncluse | backend/main.py:240-256 | what the plain query returns, the `tous` query returns too |
| Backend.Inserer | backend/main.py:247 | inserting into a list sorted by send time keeps it sorted and adds exactly that row |
| Backend.TrierParEnvoi | backend/main.py:247 | the sort is a sorted permutation of its input |
| Backend.Serveur.CreerMembre | backend/main.py:115-128 | a new id is inserted and answered with state `au_travail` (the stored state is taken to be the column default `au_travail`, since the INSERT sets only `id` and `nom`); an existing id fails with 400 "Ce membre existe déjà" and leaves both tables unchanged |
| Backend.Serveur.ChangerEtat | backend/main.py:140-171 | an unknown member fails with 404 and changes nothing; otherwise the member's state is recorded, the messages table becomes `Livrer(...)` of the old one (unchanged when nothing is released), the count is the number of matching rows, and `reload` is pushed exactly when that count is positive |
| Backend.Serveur.EnvoyerMessage | backend/main.py:203-233 | appends exactly the new row; members unchanged; the row invariant is kept |
| Backend.Serveur.GetMessages | backend/main.py:236-259 | the route returns the stored rows the member may see (own messages, and delivered ones addressed to them; only the latter without `tous`), each visible stored row, sorted by `envoye_a`, and never a pending message from someone else |
| Backend.ChangerEtatDeuxFois | backend/main.py:152-165 | repeating a state change delivers 0 the second time |
| Models.TriggerOmis | backend/models.py:27-32 | a request without a trigger asks for `maintenant` |
| Etats.EtatsListes | mobile/src/constants/etats.js:2-21 | the states are `au_travail`, `en_route`, `a_la_maison`, in that order, with distinct ids |
| Etats.EtatDefautConnu | mobile/src/constants/etats.js:24 | the default state is a listed state |
| Etats.DeclenchementsDesEtats | mobile/src/constants/etats.js:28-31 | `en_route` → `depart_travail`, `a_la_maison` → `arrivee_maison`, `au_travail` unmapped, every key a listed state |
| Triggers.TriggersListes | mobile/src/constants/triggers.js:6-25 | the triggers are `maintenant`, `depart_travail`, `arrivee_maison`, in that order, with distinct ids |
| Triggers.TriggerDefautConnu | mobile/src/constants/triggers.js:28 | the default trigger is `maintenant` and is listed |
| Texte.SplitJoin | mobile/src/screens/ChatScreen.js:18 | `split` inverts `join` on pieces without the separator (and `Split` itself always rejoins to its input, with separator-free pieces) |
| Texte.SplitAt | mobile/src/components/MessageBubble.js:13 | the text before the first separator is the first piece, and what follows splits on its own |
| Texte.Trim | mobile/src/screens/ChatScreen.js:175 | `trim()` gives "" exactly for all-whitespace text; otherwise the result starts and ends with a non-space |
| Texte.NumberDigits | mobile/src/screens/ChatScreen.js:18 | `Number` reads the decimal text of `n` back as `n` |
| Texte.NumberAllDigits | mobile/src/screens/ChatScreen.js:18 | `Number` reads any digit string, leading zeros included, as its decimal value, and "" as 0 |
| Texte.TextLeTotal | backend/main.py:247 | any two texts are comparable in SQLite's text order |
| Texte.TextLeTrans | backend/main.py:247 | the text order is transitive |
| Texte.TextLeAntisym | backend/main.py:247 | two texts each before the other are equal |
| Chat.DatePartie | mobile/src/screens/ChatScreen.js:18 | the date part is the longest `T`-free prefix: it has no `T`, when the text has a `T` it stops right before the first one, and a text without `T` is kept whole |
| Chat.ParseDateLocale | mobile/src/screens/ChatScreen.js:16-20 | `null` exactly for a missing or empty timestamp |
| Chat.JourDe | mobile/src/screens/ChatScreen.js:18-19 | fewer than three `-` fields give an invalid date, never `null` |
| Chat.ParseDateLocaleIso | mobile/src/screens/ChatScreen.js:16-20 | `Y-M-DT...` with digit fields, zero-padded or not, yields year Y, month index M − 1, day D (each field read as its decimal value; an empty field reads as 0, as `Number("")` does) |
| Chat.ParseDateLocaleExemple | mobile/src/screens/ChatScreen.js:16-20 | the server's zero-padded stamp "2026-02-27T15:00:00" reads as year 2026, month index 1, day 27 |
| Chat.AjouterSeparateurs | mobile/src/screens/ChatScreen.js:36-48 | the loop builds exactly the block-by-block list `Separes`: each message preceded by `sep-<id>` when its day differs from the last tracked day |
| Chat.SeparesMessages | mobile/src/screens/ChatScreen.js:39-46 | dropping the separators gives back the input messages in order; there are at most as many separators as messages |
| Chat.SeparesEtape | mobile/src/screens/ChatScreen.js:39-46 | the step from `n - 1` to `n` messages: if dropping the separators gave back the first `n - 1` messages, with at most `n - 1` separators, it gives back the first `n`, with at most `n` |
| Chat.SeparateurSuivi | mobile/src/screens/ChatScreen.js:40-45 | each separator is immediately followed by its message, with id `sep-<message id>` and that message's `sentAt`; the list ends with the last message |
| Chat.SansDate | mobile/src/screens/ChatScreen.js:40-41 | a message without `sentAt` gets no separator and does not move the tracked day |
| Chat.AdapterMessage | mobile/src/screens/ChatScreen.js:145-156 | the client record renames the server fields; `isMe` holds exactly when the sender is the current member |
| Chat.Snapshot | mobile/src/screens/ChatScreen.js:118 | one adapted entry per record, in snapshot order |
| Chat.ContientId | mobile/src/screens/ChatScreen.js:84 | true exactly when some entry has that id |
| Chat.FusionnerPousse | mobile/src/screens/ChatScreen.js:82-86 | a pending push leaves the list unchanged; a known id leaves it unchanged; otherwise the adapted record is appended after the untouched list |
| Chat.FusionIdsDistincts | mobile/src/screens/ChatScreen.js:83-86 | merging keeps ids distinct, keeps the old list as a prefix and adds at most one entry |
| Chat.FusionIdempotente | mobile/src/screens/ChatScreen.js:83-86 | receiving the same push twice is receiving it once |
| Chat.SnapshotIdsDistincts | mobile/src/screens/ChatScreen.js:118 | a snapshot of distinct records gives a list with distinct ids |
| Chat.PeutEnvoyer | mobile/src/screens/ChatScreen.js:175 | sending goes ahead exactly when the input is not all whitespace and a recipient is chosen |
| Chat.AutresMembres | mobile/src/screens/ChatScreen.js:67 | the other members: every member but oneself, each as often as in the list |
| Chat.AutresMembresOrdre | mobile/src/screens/ChatScreen.js:67 | the other members keep the list's order: those of `a + b` are those of `a` followed by those of `b`, and one member is kept exactly when it is not oneself |
| Listes.FilterConcat | mobile/src/screens/ChatScreen.js:67 | `filter` of a concatenation is the concatenation of the filtered parts, so the kept elements stay in their original order |
| Chat.DestinataireParDefaut | mobile/src/screens/ChatScreen.js:103-107 | a chosen recipient is kept; otherwise the first other member is picked; the pick is never oneself |
| Chat.AAnnoncer | mobile/src/screens/ChatScreen.js:164 | the as-written filter keeps exactly the pending entries from someone else |
| Chat.NotificationsLivrees | mobile/src/screens/ChatScreen.js:163-167 | the corrected filter keeps exactly the delivered entries from someone else that the refreshed list has and the old one lacked |
| Chat.Ecran.constructor | mobile/src/screens/ChatScreen.js:55-61 | the initial state: empty list, spinner on, empty input, default trigger and state, no recipient, no timer |
| Chat.Ecran.RecevoirEvenement | mobile/src/screens/ChatScreen.js:76-88 | `reload` starts a refresh and leaves the list; a message is merged by `FusionnerPousse` |
| Chat.Ecran.RafraichirMessages | mobile/src/screens/ChatScreen.js:127-134 | a snapshot replaces the list wholesale; a failed fetch keeps it |
| Chat.Ecran.ChargerMessages | mobile/src/screens/ChatScreen.js:114-124 | the same replacement, and the spinner is off afterwards whatever happened |
| Chat.Ecran.SurErreur | mobile/src/screens/ChatScreen.js:90-94 | an error arms the poll only when none is armed, so at most one interval is ever armed |
| Chat.Ecran.Demonter | mobile/src/screens/ChatScreen.js:96-99 | teardown closes the socket and leaves no interval alive |
| Chat.Ecran.ChargerMembres | mobile/src/screens/ChatScreen.js:136-143 | loaded members replace the list and the default-recipient effect runs; a failure changes nothing |
| Chat.Ecran.EnvoyerMessage | mobile/src/screens/ChatScreen.js:174-182 | nothing happens unless `PeutEnvoyer`; otherwise the input is cleared, the trigger reset, and the request carries the typed text and the trigger chosen before the reset |
| Chat.Ecran.ChangerEtat | mobile/src/screens/ChatScreen.js:158-172 | as written: the state shows at once; a successful change refreshes the list (a failed refresh keeps it); when messages were delivered the notifications are `AAnnoncer` of the list from before the call, otherwise none; a failed change leaves the list |
| Chat.Ecran.ChangerEtatCorrige | mobile/src/screens/ChatScreen.js:158-172 | the handler as evidently intended: the same state and list updates, with the notifications `NotificationsLivrees` of the old and the refreshed list |
| Bulle.GetTrigger | mobile/src/components/MessageBubble.js:5-7 | a listed trigger with that id, or none exactly when the id is not listed |
| Bulle.GetTriggerConnu | mobile/src/components/MessageBubble.js:5-7 | each listed trigger is found as itself |
| Bulle.FormaterDate | mobile/src/components/MessageBubble.js:11-15 | at most 5 characters; "" for a missing/empty input or one without `T`; otherwise the first 5 characters of the segment after the first `T` |
| Bulle.FormaterDateHeure | mobile/src/components/MessageBubble.js:11-15 | on `<date>T<hh:mm>...` the result is `hh:mm` |
| Bulle.FormaterDateExemple | mobile/src/components/MessageBubble.js:9 | "2026-02-27T14:32" shows as "14:32" |
| Bulle.EstEnAttente | mobile/src/components/MessageBubble.js:18 | `estEnAttente`: the status is `en_attente` |
| Bulle.EstAnnule | mobile/src/components/MessageBubble.js:19 | `estAnnule`: the status is `annule` |
| Bulle.EstDiffere | mobile/src/components/MessageBubble.js:20 | `estDiffere`: a truthy `deliveredAt` different from `sentAt` |
| Bulle.ConditionsDuStatut | mobile/src/components/MessageBubble.js:18-20 | pending and cancelled exclude each other and neither holds exactly for a delivered message; late exactly when the delivery time is present, non-empty and differs from the send time, so never when the two are equal |
| Bulle.VueBulle | mobile/src/components/MessageBubble.js:18-84 | sender shown exactly for others' messages; badge exactly for a listed trigger other than `maintenant` on a message not cancelled; struck text and "Message annulé" exactly when cancelled; waiting notice exactly when pending; otherwise the sent hour, plus the received hour exactly when delivered late; actions exactly on one's own pending message |
| Bulle.PiedUnique | mobile/src/components/MessageBubble.js:58-84 | the time footer shows exactly for delivered messages; the actions imply the waiting footer and no sender name |
| Coherence.DeclenchementsIdentiques | mobile/src/constants/etats.js:28-31 | the client's trigger map equals the server's (backend/main.py:26-29), links listed states to listed triggers, and never releases `maintenant` |
| Coherence.TriggerLibereSelonClient | backend/main.py:152 | the server releases a trigger exactly for the client's mapped states, and the same one |
| Coherence.DefautsAlignes | mobile/src/constants/triggers.js:28 | the omitted trigger, the composer's default and the server's immediate trigger coincide; a new member starts in the client's default state |
| Coherence.ImmediatJamaisEnRetard | mobile/src/components/MessageBubble.js:20 | a `maintenant` message is delivered on creation and its bubble never shows it as late |
| Coherence.DiffereEnRetard | mobile/src/components/MessageBubble.js:56-71 | a pending message delivered at another time shows both its sent and its received hour |
| Coherence.DemoEnRetard | mobile/src/data/demo.js:9-10 | the demo's 15:00 / 18:05 pair, written as the server's ISO stamps (the demo's own bare strings have no `T`, so `formaterDate` would show "" for them), shows "15:00" and "18:05" |
| Coherence.SnapshotCoherent | mobile/src/screens/ChatScreen.js:130 | every snapshot holds no pending message from someone else |
| Coherence.FusionCoherente | mobile/src/screens/ChatScreen.js:82-86 | every push keeps that so |
| Coherence.CreationDiffereeIgnoree | mobile/src/screens/ChatScreen.js:81-82 | a deferred message pushed to its recipient at creation leaves the recipient's list unchanged |
| Coherence.AAnnoncerVide | mobile/src/screens/ChatScreen.js:164 | on any such list the as-written filter is empty |
| Coherence.AAnnoncerSnapshotVide | mobile/src/screens/ChatScreen.js:162-164 | on any snapshot the as-written filter is empty |
| Coherence.ChangerEtatMuet | mobile/src/screens/ChatScreen.js:158-167 | the handler as written, on any list that keeps the invariant, raises no notification |
| Coherence.AAnnoncerContreExemple | mobile/src/screens/ChatScreen.js:163-166 | one message is delivered to "maman" on arriving home, the as-written filter selects nothing, the corrected filter selects it |
| Coherence.LivreeVersNotifiee | mobile/src/screens/ChatScreen.js:163-167 | each notified entry is a row the state change delivered to the member, from someone else, as the client adapts it |
| Coherence.NotifieeDeLivree | mobile/src/screens/ChatScreen.js:163-167 | each row the state change delivered to the member from someone else is notified |
| Coherence.LivreesExactes | mobile/src/screens/ChatScreen.js:163-167 | with the corrected filter the notifications are exactly the messages the state change delivered to the member from someone else |

## Left out

- WebSocket plumbing: the server's connection table, `notifier` and its error handling (backend/main.py:31-67), and the client's socket and JSON parsing. Only the decision to push `reload` (`Serveur.ChangerEtat`'s `reload`) and the handling of each received event are modelled.
- Push notifications: the Expo HTTP call and the re-query of delivered messages (backend/main.py:87-100, 172-183), and `afficherNotification` on the client. These are network I/O. Only the notification filter is modelled.
- Storage and authentication: SQL connections, `backend/database.py` and `backend/auth.py` are not part of this model. The tables are in-memory fields, and an insert failure in `creer_membre` is modelled as a duplicate id, its only cause here.
- Database schema: `backend/database.py` here is a PostgreSQL pool and defines neither `get_connexion` nor `initialiser_db`, which main.py imports, so the schema is not part of this model. The model assumes the SQLite reading of main.py's sqlite3-style calls, with `membres.etat` defaulting to `au_travail` (Backend.Serveur.CreerMembre) and TEXT compared by code point (Backend.Requete); under a locale collation the order of arbitrary text could differ, though not that of the fixed-format `strftime` stamps.
- Clock and identifiers: `datetime.now()` and `uuid4()` are parameters. Unique ids are a precondition of `Coherence.LivreesExactes`; the server class does not enforce them, just as the code does not.
- The JSON answer's display sentence (backend/main.py:190) is left out of `EtatChange`.
- `formaterSeparateur` (ChatScreen.js:22-34): it uses the wall clock and `toLocaleDateString('fr-FR')`, neither of which is modelled.
- Chat.ParseDateLocale: only digit strings are read as numbers. JavaScript's `Number` also accepts signs, decimals, hexadecimal and exponents; the model reads those as invalid. `new Date`'s roll-over of out-of-range months and days is not modelled either: the result is the triple passed to the constructor.
- Chat.Ecran.SurErreur: a timer handle is taken to be truthy, as `setInterval` handles are. The ordering of concurrent fetches is not modelled: the method that receives an answer applies it when it arrives.
- Edit and cancel transitions: no route implements them and the screen wires neither button. `annule` is only a status value, and the bubble's buttons are only shown or hidden.
- Bulle.FormaterDate: `Prefix` counts code points, JavaScript's `substring(0, 5)` counts UTF-16 code units; the two differ only on text outside the Basic Multilingual Plane, never on the ASCII stamps the server writes.
- Styles: the bubble's colours and layout are not modelled; only which parts appear and what they say.
- UI-only screens and thin wrappers: `App.js`, the login, circle and profile screens, `MessageInput.js`, `MonEtat.js`, `FamilleModal.js`, `services/api.js`, `config.js` and `services/notifications.js` are not part of this model.

## Findings

| source | as written | input that shows it | evidently intended | confidence | as-written member | corrected member |
|---|---|---|---|---|---|---|
| mobile/src/screens/ChatScreen.js:164 | the notifications after a state change are the entries of the list from before the call that are pending and not one's own; that list comes from snapshots, which never show a member a pending message from someone else, and from pushes, where pending messages are dropped, so the filter is always empty | "moi" sends "Achète du pain" to "maman" with trigger `arrivee_maison`; "maman" switches to `a_la_maison`; 1 message is delivered and no local notification is shown (the server's separate Expo push of the delivered rows, backend/main.py:171-183, is not this filter) | notify each message this state change delivered to the member: the delivered entries from someone else that the refreshed list has and the old one lacked | high (proved; not executed) | Coherence.AAnnoncerContreExemple | Coherence.LivreesExactes |
