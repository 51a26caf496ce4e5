# Daily trivia engine, modelled in Dafny

This project models the game engine of a Discord bot that posts three trivia
questions a day (easy, medium, hard) and scores the answers.

- **Scoring.** A correct answer earns the tier's base points times a time
  factor. The factor falls linearly over a day and never drops below 0.2.
- **Leaderboards.** Four boards are kept: daily, weekly, monthly and global.
  Each is a map from user id to a running total. The boards are persisted as
  snapshots and rebuilt from them at start-up.
- **Daily question sets.** Each day key gets one set, fetched once from the
  question provider. Per-guild, per-user participation records act as the
  replay guard. Flat data from old snapshots migrates lazily from the
  `__legacy__` key.
- **Sessions and scheduler.** A day-keyed registry of published
  announcements. The scheduler decides when the next announcement is due,
  whether a missed one is caught up, and whether a post replaces the existing
  session.
- **Answer buttons.** A pressed tier button is parsed, replays are refused,
  the attempt is recorded, and a correct answer is credited on all four
  boards.
- **Admin adjustment.** The command that sets or adds points.
- **Leaderboard menu.** Its custom id carries the requesting user and the
  list length, and parsing it gives them back.
- **Providers.** The OpenTDB and QuizzAPI clients, with OpenTDB's daily cache,
  three-fetches-a-day quota and rate-limit wait.
- **Stored-data readers.** The readers that validate the persisted JSON for
  questions, leaderboards, sessions and guild settings, and the settings
  registry and environment reader.
- **Maintenance script.** The script that clears guild commands.

Each source file has one module, named after what it does. `Commun` holds
the shared vocabulary. `Texte` holds the JavaScript string built-ins the code
relies on: `split`, `trim`, `toLowerCase`, `parseInt` and the `Set`-based
de-duplication. `Json` holds the untrusted values that `JSON.parse` hands to
the readers.

Objects whose fields the source updates in place are classes with `modifies`
clauses:

- the ledger;
- the question manager;
- the session registry;
- the settings registry;
- the environment reader;
- the OpenTDB client;
- the scheduler.

Loops become methods proved against a specification function, and pure logic
becomes functions and lemmas. Instants are integer milliseconds in one fixed
time zone. Arithmetic on scores is exact real arithmetic, and
`Math.round(x)` is `floor(x + 1/2)`.

## Model

| member | source | states |
|---|---|---|
| `Scoring.BasePoints` | src/services/scoring.ts:5-9 | easy, medium and hard questions are worth 50, 100 and 150 points |
| `Scoring.Round` | src/services/scoring.ts:30 | `Math.round` gives the integer within half a unit of its argument |
| `Scoring.CalculerPoints` | src/services/scoring.ts:20-37 | the elapsed seconds are the whole seconds since the announcement (0 before it); the factor is max(0.2, 1 − seconds / 86 400) and lies between 0.2 and 1; the points are the base times the factor, rounded, and lie between the rounded 20 % of the base and the base |
| `Scoring.Facteur` | src/services/scoring.ts:29 | the factor lies between 0.2 and 1, is 1 at once, falls linearly as (86 400 − s) / 86 400 up to 69 120 s and is 0.2 from then on |
| `Scoring.PointsApres` | src/services/scoring.ts:30 | the points lie between the rounded 20 % of the base and the base, are the base at once and the rounded 20 % from 69 120 s on |
| `Scoring.AvantAnnoncePointsComplets` | src/services/scoring.ts:28-30 | an answer at or before the announcement gets factor 1, 0 seconds and the full base |
| `Scoring.PointsDecroissants` | src/services/scoring.ts:28-30 | answering later never earns more points |
| `Scoring.FacteurDecroissant` | src/services/scoring.ts:29 | the time factor never grows as the elapsed seconds grow |
| `Scoring.RoundCroissant` | src/services/scoring.ts:30 | rounding is monotone |
| `Scoring.PointsApresDecroissants` | src/services/scoring.ts:29-30 | for a fixed tier, more elapsed seconds never give more points |
| `Scoring.PlancherAtteint` | src/services/scoring.ts:29-30 | from 69 120 s (0.8 of a day) on, the factor is exactly 0.2 and the points are the rounded 20 % of the base |
| `Scoring.ExempleDixSecondes` | src/services/scoring.ts:20-37 | an easy answer ten seconds after the announcement earns 50 points |
| `Classements.Crediter` | src/score/classement-service.ts:34-40 | the user's total grows by exactly the points credited (a missing entry counts as 0), the entry is stamped and carries the user id, every other entry is unchanged, well-formed boards stay well formed |
| `Classements.Trier` | src/score/classement-service.ts:49-50 | the sort is a permutation of its input and orders points from highest to lowest |
| `Classements.Inserer` | src/score/classement-service.ts:50 | inserting into a sorted list keeps it sorted and adds exactly that entry |
| `Classements.FinTranche` | src/score/classement-service.ts:51 | `slice(0, limite)` keeps `limite` entries when that is between 0 and the length, all of them above it, and drops `-limite` entries from the end when it is negative |
| `Classements.ServiceClassements.constructor` | src/score/classement-service.ts:21-26 | all four boards start empty |
| `Classements.ServiceClassements.AjouterScore` | src/score/classement-service.ts:28-41 | only board `typ` changes, and it becomes that board credited with the points for the user |
| `Classements.ServiceClassements.ObtenirScoreUtilisateur` | src/score/classement-service.ts:54-61 | null exactly when the user has no entry on that board, else that user's own entry |
| `Classements.ServiceClassements.ObtenirTop` | src/score/classement-service.ts:43-52 | the result has the length `slice` gives, is sorted by points, lists entries of that board with distinct users, and every entry left out has no more points than any entry listed; without a limit, at most 10 entries |
| `Classements.ServiceClassements.ToSnapshot` | src/score/classement-service.ts:63-89 | every board's list holds each of its entries exactly once and nothing else |
| `Classements.ValeursDe` | src/score/classement-service.ts:49 | `Array.from(values())` lists every entry of the board exactly once |
| `Classements.TrancheTriee` | src/score/classement-service.ts:49-51 | a prefix of a sorted listing of a board is sorted, holds board entries with distinct users and is at least as good as every entry it leaves out |
| `Classements.SansDoublonTrie` | src/score/classement-service.ts:50 | sorting keeps user ids distinct |
| `Classements.ExempleAgregation` | tests/unit/score/classement-service.spec.ts:4-14 | scoring 10 then 5 for one user leaves one top entry of 15 points |
| `Classements.ExempleTopUn` | tests/unit/score/classement-service.spec.ts:16-25 | with A at 10 and B at 12 the top one is B |
| `CoreClassements.Rejouee` | src/core/classements.ts:28-46 | an entry is replayed only if it passes the type guard (object, string id, number points, string timestamp) and its points are positive; it replays its own id and points |
| `CoreClassements.InitialiserDepuisSnapshot` | src/core/classements.ts:24-34 | each of the four boards becomes the old board with the snapshot's list for that board replayed in order |
| `CoreClassements.RejouerListe` | src/core/classements.ts:26-32 | replaying one list changes only that board, into the list's replay |
| `CoreClassements.RegistreClassements.constructor` | src/core/classements.ts:7 | no ledger exists before first use |
| `CoreClassements.RegistreClassements.ObtenirServiceClassements` | src/core/classements.ts:9-15 | an existing ledger is returned untouched; otherwise a fresh ledger filled from the persisted snapshot becomes the instance |
| `CoreClassements.RegistreClassements.SauvegarderClassementsActuels` | src/core/classements.ts:17-22 | nothing is written exactly when there is no ledger; otherwise each board is written with each of its entries once |
| `CoreClassements.RestaurerIgnore` | src/core/classements.ts:28-30 | an entry failing the guard or with non-positive points leaves the board unchanged |
| `CoreClassements.RejoueeVersJson` | src/core/classements.ts:28-31 | an entry as written by the snapshot is replayed exactly when its points are positive |
| `CoreClassements.RestaurerAdditionneDoublons` | src/core/classements.ts:27-31 | two entries of one user in a list are added together |
| `CoreClassements.AttenduCles` | src/core/classements.ts:27-31 | after restoring a list, a user has an entry exactly when the list holds one of theirs with positive points |
| `CoreClassements.RestaurerListe` | src/core/classements.ts:24-34 | restoring a list of distinct users gives each user with positive points their listed entry, restamped |
| `CoreClassements.SnapshotPuisRestaurer` | src/core/classements.ts:9-34 | snapshotting a board and restoring it into a fresh ledger gives back exactly the users with a positive total, with the same totals |
| `StockageClassements.ListeVersJson` | src/storage/classements.ts:130 | a list is written as one JSON object per entry, in order |
| `StockageClassements.NormaliserEntree` | src/storage/classements.ts:45-64 | a raw entry is kept exactly when it is an object with a string id, a numeric non-NaN points field and a string timestamp, and the kept entry carries those three values |
| `StockageClassements.Filtrer` | src/storage/classements.ts:43-65 | the kept entries are never more than the raw ones |
| `StockageClassements.FiltrerProvenance` | src/storage/classements.ts:45-65 | every kept entry is the normal form of some raw entry |
| `StockageClassements.FiltrerConcat` | src/storage/classements.ts:45-65 | kept entries stay in input order (filtering distributes over concatenation) |
| `StockageClassements.NormaliserClassements` | src/storage/classements.ts:28-75 | the result has all four boards; each is the filtered raw list of that type (a missing or non-array field gives an empty board); a non-object gives four empty boards |
| `StockageClassements.FiltrerListe` | src/storage/classements.ts:43-65 | the inner loop pushes exactly the filtered entries, in order |
| `StockageClassements.CloneState` | src/storage/classements.ts:77-99 | the clone has the same boards with the same entries |
| `StockageClassements.NormaliserEntreeVersJson` | src/storage/classements.ts:45-64 | a written entry normalises back to itself |
| `StockageClassements.FiltrerListeVersJson` | src/storage/classements.ts:43-65 | a written list filters back to itself |
| `StockageClassements.ListeSourceVersJson` | src/storage/classements.ts:42 | each board is read back from the field it was written under |
| `StockageClassements.NormaliserSnapshotVersJson` | src/storage/classements.ts:28-75 | writing a snapshot and normalising it gives the same boards |
| `Sessions.RegistreSessions.constructor` | src/services/sessions.ts:13 | the registry starts empty |
| `Sessions.RegistreSessions.Enregistrer` | src/services/sessions.ts:15-17 | the session is stored under its own day key, replacing any earlier one there, and nothing else changes |
| `Sessions.RegistreSessions.Obtenir` | src/services/sessions.ts:19-21 | a session is found exactly when one is registered under the key, and it is that one, carrying that key |
| `Sessions.RegistreSessions.ObtenirPourDate` | src/services/sessions.ts:23-26 | the lookup by date is the lookup under the date's day key |
| `Sessions.RegistreSessions.Supprimer` | src/services/sessions.ts:28-30 | only that key is removed |
| `Sessions.RegistreSessions.SupprimerPourDate` | src/services/sessions.ts:32-34 | only the date's day key is removed |
| `Sessions.RegistreSessions.Vider` | src/services/sessions.ts:36-38 | no session remains |
| `StockageSessions.NormaliserSession` | src/storage/sessions-store.ts:27-52 | a raw value is kept exactly when it is an object whose six fields are all strings, and the kept entry carries those six strings |
| `StockageSessions.NormaliserSessions` | src/storage/sessions-store.ts:54-69 | a key is kept exactly when its value normalises, under the same key and as its normal form; a non-object gives an empty record |
| `StockageSessions.SessionsValidesAjout` | src/storage/sessions-store.ts:61-66 | one more key adds its entry exactly when that entry normalises |
| `StockageSessions.CloneSnapshot` | src/storage/sessions-store.ts:71-77 | the clone equals its input |
| `StockageSessions.NormaliserSessionVersJson` | src/storage/sessions-store.ts:27-52 | a written session reads back unchanged |
| `StockageSessions.NormaliserSnapshotVersJson` | src/storage/sessions-store.ts:54-69 | a written snapshot reads back unchanged |
| `StockageSessions.SessionIncompleteRejetee` | src/storage/sessions-store.ts:33-42 | an entry lacking its thread id is dropped even with the other five fields present |
| `StockageGuildes.Trunc` | src/storage/guilds.ts:45 | `Math.trunc` rounds toward zero |
| `StockageGuildes.BorneTronquee` | src/storage/guilds.ts:45 | the truncated value clamped into [min, max]: itself when in range, else the nearer bound |
| `StockageGuildes.HeureOuMinute` | src/storage/guilds.ts:43-50 | a finite number is truncated and clamped into [0, max]; anything else gives the fallback |
| `StockageGuildes.FuseauConserve` | src/storage/guilds.ts:56-59 | a timezone is kept, as written, exactly when it is a string with non-blank content |
| `StockageGuildes.NormaliserEntree` | src/storage/guilds.ts:36-60 | a guild is kept exactly when its value is an object with a string channel id; its hour lies in 0..23 (9 when not a finite number), its minute in 0..59 (0 when not a finite number), its timezone as above |
| `StockageGuildes.ConfigurationsValidesAjout` | src/storage/guilds.ts:35-61 | one more key adds its guild exactly when that guild is kept |
| `StockageGuildes.NormaliserConfiguration` | src/storage/guilds.ts:27-64 | a guild id is kept exactly when its entry is kept, with that entry's normal form; a non-object gives an empty record |
| `StockageGuildes.ChampsConfiguration` | src/storage/guilds.ts:94 | a written guild entry is an object holding its channel, hour, minute and, if present, timezone |
| `StockageGuildes.HeureOuMinuteEntiere` | src/storage/guilds.ts:43-50 | a whole number already in range reads back as itself |
| `StockageGuildes.NormaliserEntreeVersJson` | src/storage/guilds.ts:36-60 | a normalised guild entry, once written, reads back unchanged |
| `StockageGuildes.NormaliserEntreeNormalisee` | src/storage/guilds.ts:36-60 | every entry read back has its times in range and no blank timezone |
| `StockageGuildes.NormaliserSnapshotVersJson` | src/storage/guilds.ts:27-64 | normalising a written record of normalised guilds gives it back, so reading is idempotent |
| `StockageGuildes.HeuresBornees` | src/storage/guilds.ts:43-50 | 27 reads as 23, -3.5 as 0, 8.9 as 8, an infinity as the fallback 9, and the string "8" as the fallback 0 |
| `ConfigurationGuildes.Clamp` | src/core/configuration-guildes.ts:118-123 | a non-finite value gives the fallback; a finite one is truncated and clamped into [min, max] |
| `ConfigurationGuildes.FuseauDefini` | src/core/configuration-guildes.ts:74 | a missing or blank timezone becomes "Europe/Paris", any other is trimmed; the result is never empty |
| `ConfigurationGuildes.FuseauDefiniRogne` | src/core/configuration-guildes.ts:74 | the stored timezone is already trimmed |
| `ConfigurationGuildes.BorneEntiere` | src/core/configuration-guildes.ts:122 | the integer clamp keeps an in-range value and stays within bounds |
| `ConfigurationGuildes.ClampEntier` | src/core/configuration-guildes.ts:118-123 | on a whole number, `clamp` is the integer clamp |
| `ConfigurationGuildes.DepuisSnapshot` | src/core/configuration-guildes.ts:35-53 | a loaded guild keeps its id and channel, has its times in range (unchanged when already in range), takes "Europe/Paris" for a missing timezone and is stamped with the loading instant |
| `ConfigurationGuildes.Chargement` | src/core/configuration-guildes.ts:27-31 | the registry holds exactly the stored guilds, each converted as above |
| `ConfigurationGuildes.SnapshotDe` | src/core/configuration-guildes.ts:106-114 | the store holds exactly the registered guilds with their channel, hour, minute and timezone |
| `ConfigurationGuildes.Existante` | src/core/configuration-guildes.ts:77 | the existing settings are found exactly when the guild is registered |
| `ConfigurationGuildes.NouvelleConfiguration` | src/core/configuration-guildes.ts:72-86 | new settings carry the clamped hour (fallback 9) and minute (0 when absent), the trimmed or default timezone, the creation date of any existing settings and a fresh update date |
| `ConfigurationGuildes.RegistreConfigurations.constructor` | src/core/configuration-guildes.ts:21 | the registry is not loaded until first use |
| `ConfigurationGuildes.RegistreConfigurations.Charge` | src/core/configuration-guildes.ts:23-33 | whatever the registry holds or would load is well formed (every guild under its own id, times in range) |
| `ConfigurationGuildes.RegistreConfigurations.ChargerCache` | src/core/configuration-guildes.ts:23-33 | a loaded registry is kept; otherwise the store is loaded once, and the store is not touched |
| `ConfigurationGuildes.RegistreConfigurations.Persister` | src/core/configuration-guildes.ts:102-116 | nothing is written before loading; otherwise the store becomes the registry's four fields per guild |
| `ConfigurationGuildes.RegistreConfigurations.Lister` | src/core/configuration-guildes.ts:55-57 | every registered guild's settings are listed exactly once |
| `ConfigurationGuildes.ValeursDe` | src/core/configuration-guildes.ts:56 | the values of the registry are listed with one entry per guild, each holding that guild's settings |
| `ConfigurationGuildes.RegistreConfigurations.Obtenir` | src/core/configuration-guildes.ts:59-61 | a guild's settings are found exactly when it is registered, and carry its id |
| `ConfigurationGuildes.RegistreConfigurations.Definir` | src/core/configuration-guildes.ts:63-91 | the returned settings are the new settings built from what was registered before; they replace that guild's entry only, and the registry is written back |
| `ConfigurationGuildes.RegistreConfigurations.Enregistrer` | src/core/configuration-guildes.ts:88-89 | one guild's entry is set and the whole registry is written back |
| `ConfigurationGuildes.RegistreConfigurations.Supprimer` | src/core/configuration-guildes.ts:93-100 | an unknown guild changes nothing and writes nothing; a known one is removed and the registry written back |
| `ConfigurationGuildes.PersistanceRelue` | src/core/configuration-guildes.ts:102-116 | the written registry reads back through the store's normalisation as the same four fields per guild |
| `ConfigurationGuildes.RechargementFidele` | src/core/configuration-guildes.ts:23-53 | reloading a written registry restores every guild's channel, times and timezone |
| `Environnement.ClampNombre` | src/config/environnement.ts:49-54 | NaN gives the fallback; a number is clamped into [min, max] and kept when already in range |
| `Environnement.LireConfiguration` | src/config/environnement.ts:22-46 | the read fails, with the message naming the three variables, exactly when the token, guild id or channel id is missing or empty; otherwise it carries those three values, the quiz API URL or its default, and times in range that default to 09:00 when unset or not a number |
| `Environnement.ChargeurConfiguration.constructor` | src/config/environnement.ts:12 | nothing is memoised at start |
| `Environnement.ChargeurConfiguration.ObtenirConfiguration` | src/config/environnement.ts:17-47 | a memoised configuration is returned unchanged; otherwise the environment is read and a successful read is memoised while a failure is not |
| `Environnement.HorairesLus` | src/config/environnement.ts:28-29 | the hour and minute are `parseInt` of the variables (defaults "9" and "0"), clamped with fallbacks 9 and 0 |
| `Environnement.LectureTrenteMoinsCinq` | src/config/environnement.ts:28-29 | "30" parses as 30 and "-5" as -5 |
| `Environnement.HorairesBornes` | src/config/environnement.ts:42-43 | an hour of 30 is clamped to 23 and a minute of -5 to 0 |
| `NettoyageCommandes.IdPropreTrim` | scripts/clear-guild-commands.ts:13-15 | a usable id is its own trim |
| `NettoyageCommandes.Decouper` | scripts/clear-guild-commands.ts:12 | splitting gives at least one piece and no piece holds a comma or white space |
| `NettoyageCommandes.Nettoyer` | scripts/clear-guild-commands.ts:13-15 | a piece is kept exactly when its trim is non-empty, and it is kept trimmed |
| `NettoyageCommandes.Candidats` | scripts/clear-guild-commands.ts:12-16 | every candidate id is non-empty and trimmed |
| `NettoyageCommandes.Ajouter` | scripts/clear-guild-commands.ts:13-15 | `Set.add` of the trimmed piece: appended when non-empty and new, otherwise the set is unchanged |
| `NettoyageCommandes.CandidatsEtape` | scripts/clear-guild-commands.ts:12-16 | one more piece adds its trimmed form exactly when that is non-empty |
| `NettoyageCommandes.DedupliquerEtape` | scripts/clear-guild-commands.ts:9 | adding an element to an insertion-ordered set appends it only when new |
| `NettoyageCommandes.AjoutDedupliquer` | scripts/clear-guild-commands.ts:9 | adding an optional id to the de-duplicated list appends it only when it is present and new |
| `NettoyageCommandes.AjouterTous` | scripts/clear-guild-commands.ts:12-16 | one loop of the script leaves the set equal to the de-duplicated earlier ids followed by this variable's ids |
| `NettoyageCommandes.ExtraireGuildIds` | scripts/clear-guild-commands.ts:8-26 | the ids are those of DISCORD_GUILD_ID then EXTRA_GUILD_IDS, each kept at its first occurrence |
| `NettoyageCommandes.GuildIdsPropres` | scripts/clear-guild-commands.ts:8-26 | every extracted id is non-empty and trimmed |
| `NettoyageCommandes.DedupliquerDeuxListes` | scripts/clear-guild-commands.ts:9-25 | the set of two lists has no duplicate, holds exactly their elements, and starts with the set of the first |
| `NettoyageCommandes.GuildIdsOrdonnes` | scripts/clear-guild-commands.ts:8-26 | the extracted ids are distinct, are exactly the listed ones, and the principal variable's ids come first |
| `NettoyageCommandes.Requetes` | scripts/clear-guild-commands.ts:44-51 | one request per guild, in order, each paired with whether it succeeded |
| `NettoyageCommandes.SupprimerDansChaque` | scripts/clear-guild-commands.ts:44-51 | the loop asks every guild in turn and a failure does not stop it |
| `NettoyageCommandes.SupprimerCommandesGuildes` | scripts/clear-guild-commands.ts:28-52 | a missing token or client id fails before any request; no listed guild means no request; otherwise each listed guild is asked once, in order |
| `NettoyageCommandes.DecouperExemples` | scripts/clear-guild-commands.ts:12 | "b" splits into one piece and "a, b" into "a", an empty piece and "b" |
| `NettoyageCommandes.CandidatsAvecVide` | scripts/clear-guild-commands.ts:12-16 | an empty piece between two ids is skipped |
| `NettoyageCommandes.IdsDeExemples` | scripts/clear-guild-commands.ts:11-16 | "a, b" lists a and b; "b" lists b |
| `NettoyageCommandes.DedupliquerRepete` | scripts/clear-guild-commands.ts:9 | an id repeated at the end is kept once |
| `NettoyageCommandes.GuildIdsDe` | scripts/clear-guild-commands.ts:8-26 | principal ids [x, y] and extra ids [y] give [x, y] |
| `NettoyageCommandes.ExempleIds` | scripts/clear-guild-commands.ts:8-26 | DISCORD_GUILD_ID "a, b" with EXTRA_GUILD_IDS "b" gives the ids a and b |
| `ModifierPoints.Ajuster` | src/commands/modifier-points.ts:83-90 | the member's total ends at the target (the given value, else the current total plus the addition) and every other member is untouched |
| `ModifierPoints.TypesVises` | src/commands/modifier-points.ts:80 | the chosen board alone, or all four boards when none is chosen |
| `ModifierPoints.Executer` | src/commands/modifier-points.ts:45-101 | outside a server, without Manage Server, or with neither value nor addition the command refuses and changes nothing; otherwise exactly the targeted boards are adjusted for the member |
| `ModifierPoints.AjusterUn` | src/commands/modifier-points.ts:82-91 | one loop iteration adjusts that board only |
| `ModifierPoints.AjusterAtteintCible` | src/commands/modifier-points.ts:84-86 | a given value becomes the total; with no entry, the addition alone becomes the total |
| `ModifierPoints.FixerIdempotent` | src/commands/modifier-points.ts:85-89 | setting the same value a second time changes nothing |
| `ModifierPoints.AjoutNulSansEffet` | src/commands/modifier-points.ts:86-89 | adding zero leaves the board exactly as it was |
| `AnnonceClassement.ConstruireMenu` | src/bot/leaderboard-announcer.ts:134-154 | the menu id is `lb-select` without an owner and `lb-select\|owner\|limite` with one; the four boards are offered in fixed order with exactly the active one marked as default |
| `AnnonceClassement.ExtraireParametres` | src/bot/leaderboard-announcer.ts:171-183 | the limit is always positive; a foreign prefix gives no owner and limit 10; an owner read back holds no `\|` |
| `AnnonceClassement.ExtraireConstruire` | src/bot/leaderboard-announcer.ts:138-183 | the id of a user's menu (non-empty owner without `\|`, positive limit) parses back to that owner and limit |
| `AnnonceClassement.SegmentsCustomId` | src/bot/leaderboard-announcer.ts:172 | an owned menu id splits back into its three segments |
| `AnnonceClassement.LectureSansChiffre` | src/bot/leaderboard-announcer.ts:178 | text starting with a character that is no blank, sign or digit reads as NaN |
| `AnnonceClassement.LimiteNonNumerique` | src/bot/leaderboard-announcer.ts:178-182 | a limit segment "abc" falls back to 10 |
| `AnnonceClassement.LimiteNulle` | src/bot/leaderboard-announcer.ts:178-182 | a limit segment "0" falls back to 10 |
| `AnnonceClassement.TraiterSelectionClassement` | src/bot/leaderboard-announcer.ts:44-85 | a foreign menu is ignored; an unknown board is refused exactly when the prefix matches; for a known board, the menu is refused exactly when it has a non-empty owner other than the user; otherwise the chosen board is shown with the same owner and limit |
| `AnnonceClassement.SelectionConserveParametres` | src/bot/leaderboard-announcer.ts:60-71 | the re-rendered menu of a user carries the same owner and limit for the next selection |
| `Propositions.GenererPropositions` | src/services/quizzapi.ts:68-71 | the correct answer comes first; every text appears once; exactly the answer and the wrong answers appear; texts keep the order of their first occurrence; distinct inputs are kept as they are |
| `OpenTdb.NormaliserDifficulte` | src/services/opentdb.ts:241-250 | "easy" is the easy tier, "hard" the hard tier, anything else the medium tier |
| `OpenTdb.MapperDifficultePourApi` | src/services/opentdb.ts:252-265 | no tier sends no difficulty; a tier sends one of easy, medium or hard |
| `OpenTdb.DifficulteAllerRetour` | src/services/opentdb.ts:241-265 | sending a tier and reading the difficulty back gives the same tier |
| `OpenTdb.MapperCategoriePourApi` | src/services/opentdb.ts:267-278 | a missing or empty category sends none; any other sends its `parseInt` (none when NaN) |
| `OpenTdb.CategorieNumerique` | src/services/opentdb.ts:267-278 | a numeric category id is sent as that number |
| `OpenTdb.DecrireCodeErreur` | src/services/opentdb.ts:280-295 | response code 5 reports the rate limit |
| `OpenTdb.MessageErreur` | src/services/opentdb.ts:216-221 | HTTP 429 gets the rate-limit message, another transport error keeps its message, a non-zero response code is described |
| `OpenTdb.CleCacheDe` | src/services/opentdb.ts:297-304 | the cache key carries the day |
| `OpenTdb.CleCacheDefauts` | src/services/opentdb.ts:297-304 | the key carries the tier or "toutes", the category or "toutes", and the count or 1 |
| `OpenTdb.CleCacheMemeRecherche` | src/services/opentdb.ts:297-304 | two searches share a cache key exactly when they are on the same day, for the same tier, and agree on category and count once the defaults are filled in |
| `OpenTdb.RequeteDe` | src/services/opentdb.ts:107-115 | the request asks for the limit (1 by default), the mapped difficulty and the mapped category |
| `OpenTdb.TextesATraduire` | src/services/opentdb.ts:179-189 | the texts to translate are the decoded question, answer, each wrong answer and the category, in that order |
| `OpenTdb.MauvaisesTraduites` | src/services/opentdb.ts:198-200 | each wrong answer takes its translation, or its decoded text when the translation is missing |
| `OpenTdb.FormaterQuestion` | src/services/opentdb.ts:178-213 | the id is the identifier of the raw question, answer and index; the difficulty is normalised; the choices are built from the translated answer and wrong answers; without translations the decoded texts are used; with a full set of translations the translated texts are used |
| `OpenTdb.FormaterQuestions` | src/services/opentdb.ts:121-123 | one formatted question per result, each with its index |
| `OpenTdb.CacheDuJour` | src/services/opentdb.ts:161-167 | exactly the entries of the given day stay, unchanged |
| `OpenTdb.ClientOpenTdb.constructor` | src/services/opentdb.ts:75-87 | the delay is 5500 ms by default and a non-positive one becomes 0; the cache, counter and last request start empty |
| `OpenTdb.ClientOpenTdb.AttenteRateLimit` | src/services/opentdb.ts:145-159 | no wait without a delay, before any request, or once the delay has elapsed; otherwise the wait is positive, ends exactly a delay after the last request, and is at most the delay |
| `OpenTdb.ClientOpenTdb.PurgerCacheAncien` | src/services/opentdb.ts:161-167 | entries of other days are dropped and nothing else changes |
| `OpenTdb.ClientOpenTdb.ReinitialiserQuotaSiNecessaire` | src/services/opentdb.ts:138-143 | the same day changes nothing; a new day zeroes the counter and purges the cache |
| `OpenTdb.ClientOpenTdb.RecupererQuestions` | src/services/opentdb.ts:89-136 | a cached answer is returned without network or quota use; a miss after 3 fetches that day fails with the daily-limit message; otherwise the client waits out the window, calls the API once and counts and caches the result only on success |
| `QuizzApi.NormaliserDifficulte` | src/services/quizzapi.ts:81-90 | lower-cased text containing "fac" is easy; otherwise containing "dif" is hard; anything else is medium |
| `QuizzApi.MapperDifficultePourApi` | src/services/quizzapi.ts:92-102 | no tier sends none; medium sends "normal"; the other tiers send their own name |
| `QuizzApi.LectureFac` | src/services/quizzapi.ts:81-85 | lower-case text starting with "fac" reads as easy |
| `QuizzApi.LectureDif` | src/services/quizzapi.ts:81-88 | lower-case text starting with "dif" and without an 'a' reads as hard |
| `QuizzApi.LectureSansF` | src/services/quizzapi.ts:81-89 | lower-case text without an 'f' reads as medium |
| `QuizzApi.LectureFacile` | src/services/quizzapi.ts:81-85 | "facile" reads as easy |
| `QuizzApi.LectureNormal` | src/services/quizzapi.ts:81-89 | "normal" reads as medium |
| `QuizzApi.LectureDifficile` | src/services/quizzapi.ts:81-88 | "difficile" reads as hard |
| `QuizzApi.DifficulteAllerRetour` | src/services/quizzapi.ts:81-102 | sending a tier and reading the difficulty back gives the same tier |
| `QuizzApi.IdentifiantDeSecours` | src/services/quizzapi.ts:73-79 | a non-empty question gives exactly its first 32 characters (all of it when shorter); otherwise "question-" followed by the instant |
| `QuizzApi.FormaterQuestion` | src/services/quizzapi.ts:53-66 | each present field is kept and each missing one takes its default (unknown answer, unavailable question, general category, no wrong answers, fallback id); the choices are built from the answer and wrong answers |
| `QuizzApi.RequeteDe` | src/services/quizzapi.ts:36-40 | the request asks for the limit (3 by default), the mapped difficulty and the category as given |
| `QuizzApi.RecupererQuestions` | src/services/quizzapi.ts:33-50 | a transport error is rethrown with its message; otherwise one formatted question per quiz returned, none when the list is missing |
| `QuizzApi.PropositionsDansLOrdre` | tests/unit/services/quizzapi.spec.ts:41-46 | distinct answers give the right one first, then the wrong ones in order |
| `QuizzApi.QuizzVide` | src/services/quizzapi.ts:53-66 | an empty quiz gets every default |
| `Planification.CalculerDelaiMs` | src/bot/scheduler.ts:56-75 | the delay is never below 1 ms, and is 10 ms when a missed announcement must be caught up |
| `Planification.DoiventPublierImmediatement` | src/bot/scheduler.ts:77-92 | the announcement is caught up exactly when there is no session today and the time of day is past the configured hour and minute |
| `Planification.DelaiVersProchainHoraire` | src/bot/scheduler.ts:62-73 | without catch-up and with a valid time, the delay lands on the announcement time, within one day, and no earlier instant after now does |
| `Planification.SessionEmpecheRattrapage` | src/bot/scheduler.ts:77-81 | an existing session for today rules out the catch-up, and the delay is then positive |
| `Planification.DecomposerCustomId` | src/bot/scheduler.ts:103-106 | none of the three pieces holds a `\|` |
| `Planification.DecomposerCustomIdBouton` | src/bot/scheduler.ts:99-106 | a button id is recognised as a question button and decomposes back into its tier and day key when the key holds no `\|` |
| `Planification.EstBoutonQuestionDecompose` | src/bot/scheduler.ts:99-106 | an id is a question button exactly when its first piece is `question` and a second piece follows |
| `Planification.PublierAnnonceQuotidienne` | src/bot/scheduler.ts:108-177 | an existing session without force posts nothing and changes nothing; a missing channel changes nothing; with force the old session is removed before the new one is registered under the set's day key; a given set is used without asking the question manager |
| `Planification.PlanificateurAnnonceQuotidienne.constructor` | src/bot/scheduler.ts:27-30 | no cycle is armed at start |
| `Planification.PlanificateurAnnonceQuotidienne.Arreter` | src/bot/scheduler.ts:36-41 | no cycle remains armed, whether one was armed or not |
| `Planification.PlanificateurAnnonceQuotidienne.PlanifierProchainCycle` | src/bot/scheduler.ts:43-54 | the next cycle is armed at the computed delay, at least 1 ms |
| `Planification.PlanificateurAnnonceQuotidienne.ExecuterCycle` | src/bot/scheduler.ts:45-53 | after the post, whatever its outcome, the next cycle is re-armed from the registry as the post left it; after a post no catch-up is due |
| `BoutonsQuestion.AnalyserCustomId` | src/interactions/question-buttons.ts:276-285 | an accepted id is a question-button id with a known tier and a non-empty day key, and decomposes into exactly those pieces |
| `BoutonsQuestion.AnalyserCustomIdBouton` | src/interactions/question-buttons.ts:276-285 | every button id the announcement builds is parsed back into its own tier and day key |
| `BoutonsQuestion.AnalyserSansCle` | src/interactions/question-buttons.ts:278-280 | an id without a day key is refused |
| `BoutonsQuestion.SansDiacritiquesConcat` | src/interactions/question-buttons.ts:292-294 | removing diacritics works character by character, so it distributes over concatenation |
| `BoutonsQuestion.SansDiacritiquesEspaces` | src/interactions/question-buttons.ts:292-294 | white space is left untouched by diacritic removal |
| `BoutonsQuestion.LowerTrimStart` | src/interactions/question-buttons.ts:295-296 | lower-casing and trimming the start commute |
| `BoutonsQuestion.LowerTrimEnd` | src/interactions/question-buttons.ts:295-296 | lower-casing and trimming the end commute |
| `BoutonsQuestion.LowerTrim` | src/interactions/question-buttons.ts:295-296 | lower-casing and trimming commute |
| `BoutonsQuestion.ComparerReflexifSymetrique` | src/interactions/question-buttons.ts:287-289 | answer comparison is reflexive and symmetric |
| `BoutonsQuestion.ComparerIgnoreEspaces` | src/interactions/question-buttons.ts:287-297 | leading and trailing white space around an answer does not change the comparison |
| `BoutonsQuestion.ComparerIgnoreCasse` | src/interactions/question-buttons.ts:287-297 | answers whose diacritic-free texts agree up to letter case are judged equal |
| `BoutonsQuestion.NormaliserTexte` | src/interactions/question-buttons.ts:291-297 | the normal form is no longer than the diacritic-free text, has no white space at either end and is all lower case |
| `BoutonsQuestion.LowerBords` | src/interactions/question-buttons.ts:296 | lower-casing keeps the ends of a trimmed text free of white space and gives text that is its own lower case |
| `BoutonsQuestion.ComparerReponse` | src/interactions/question-buttons.ts:287-289 | an answer matches itself, and two answers whose diacritic-free texts agree up to case match |
| `BoutonsQuestion.Melanger` | src/interactions/question-buttons.ts:299-306 | the result is a fresh array, a permutation of the input, and the input is not modified |
| `BoutonsQuestion.CrediterPartout` | src/interactions/question-buttons.ts:179-182 | the daily, weekly, monthly and global boards are each credited with the same points and no board is added or removed |
| `BoutonsQuestion.EnregistrerTentative` | src/interactions/question-buttons.ts:72-219 | no answer is a timeout, a matching answer a success and anything else a failure; the attempt is recorded with its status in the set, and only a success credits the score points on all four boards |
| `BoutonsQuestion.TraiterBoutonQuestion` | src/interactions/question-buttons.ts:30-100 | an invalid id, a missing server, a missing session, a failed fetch and a replay each end without changing the questions or the boards; otherwise the set is fetched, the attempt is recorded once and only a correct answer scores |
| `BoutonsQuestion.PressionRepetee` | src/interactions/question-buttons.ts:64-70 | once an attempt is recorded, pressing the same button again is refused as already tried |
| `ServiceQuestionsDuJour.QuestionsDuJour.AvecEtat` | src/services/questions-du-jour.ts:22-26 | replacing one tier's state leaves the other tiers, the day key and the generation date as they were |
| `ServiceQuestionsDuJour.ObtenirOuCreerParticipantsPourGuilde` | src/services/questions-du-jour.ts:226-242 | afterwards the guild has its own map and sees what it saw before (its own map, else the legacy map, else nothing); an absent guild takes over the legacy map, which is removed; no other guild moves; an existing guild changes nothing |
| `ServiceQuestionsDuJour.EnregistrerDans` | src/services/questions-du-jour.ts:108-109 | the user's participation is stored under the guild |
| `ServiceQuestionsDuJour.Generer` | src/services/questions-du-jour.ts:119-154 | a set is built exactly when the provider has a question for every tier, from the first question of each tier with no participants; otherwise the error names a tier without questions |
| `ServiceQuestionsDuJour.TousNiveauxFournis` | src/services/questions-du-jour.ts:51 | the three listed tiers are all the tiers |
| `ServiceQuestionsDuJour.NormaliserParticipation` | src/services/questions-du-jour.ts:326-348 | only an object normalises; an unknown status reads as incorrect, a non-string answer as none, a missing answer date as now, and the known fields are kept |
| `ServiceQuestionsDuJour.GuildeDepuisChampsAjout` | src/services/questions-du-jour.ts:304-309 | reading one more raw field adds that user exactly when the participation normalises |
| `ServiceQuestionsDuJour.ParGuildeSurAjout` | src/services/questions-du-jour.ts:299-313 | reading one more raw guild adds it exactly when it is an object with at least one participation that normalises |
| `ServiceQuestionsDuJour.RestaurerGuilde` | src/services/questions-du-jour.ts:303-309 | the loop over one raw guild record builds the participations that normalise |
| `ServiceQuestionsDuJour.RestaurerGuildes` | src/services/questions-du-jour.ts:299-313 | the loop over a per-guild record keeps exactly the guild records that are objects with at least one participation that normalises |
| `ServiceQuestionsDuJour.RestaurerParticipantsBoucle` | src/services/questions-du-jour.ts:274-316 | the loops build the restored participants, with the corrected legacy test |
| `ServiceQuestionsDuJour.SerialiserParticipants` | src/services/questions-du-jour.ts:245-272 | one record per guild with one entry per user, each holding the answer, status and date |
| `ServiceQuestionsDuJour.GestionnaireQuestionsDuJour.constructor` | src/services/questions-du-jour.ts:62-66 | the manager starts empty, or holds every day of the snapshot with participants restored by the corrected reader |
| `ServiceQuestionsDuJour.GestionnaireQuestionsDuJour.ObtenirJeuPour` | src/services/questions-du-jour.ts:68-80 | a cached day is returned without asking the provider; otherwise the provider is asked once per tier and the new set is cached only when it is built; a failure caches nothing |
| `ServiceQuestionsDuJour.GestionnaireQuestionsDuJour.EnregistrerParticipation` | src/services/questions-du-jour.ts:95-111 | a day without a set fails with its message and changes nothing; otherwise the participation is stored and the user is then seen as having answered |
| `ServiceQuestionsDuJour.GestionnaireQuestionsDuJour.ReinitialiserPour` | src/services/questions-du-jour.ts:113-117 | only that day is forgotten |
| `ServiceQuestionsDuJour.GestionnaireQuestionsDuJour.ToSnapshot` | src/services/questions-du-jour.ts:164-186 | every cached day appears, with each tier's question and serialised participants |
| `ServiceQuestionsDuJour.ChargerDepuisSnapshot` | src/services/questions-du-jour.ts:194-217 | every day of the snapshot is loaded with its participants restored by the corrected reader, and the result is well formed |
| `ServiceQuestionsDuJour.EnregistrerPuisDejaRepondu` | src/services/questions-du-jour.ts:82-111 | after a write, the same user is seen as having answered in that guild |
| `ServiceQuestionsDuJour.EnregistrerLocal` | src/services/questions-du-jour.ts:95-242 | a write leaves every other guild, and every other user of that guild, as they were seen before |
| `ServiceQuestionsDuJour.EnregistrerEcrase` | src/services/questions-du-jour.ts:108-109 | a second write for the same user replaces the first |
| `ServiceQuestionsDuJour.LegacyEnRepli` | src/services/questions-du-jour.ts:219-224 | a guild without its own record is answered from the legacy record |
| `ServiceQuestionsDuJour.PremiereEcritureMigreLegacy` | src/services/questions-du-jour.ts:230-239 | the first write of a guild copies the legacy record under that guild and removes the legacy key |
| `ServiceQuestionsDuJour.ParticiperBienForme` | src/services/questions-du-jour.ts:95-111 | a write keeps the set well formed and changes only that tier's participants |
| `ServiceQuestionsDuJour.RestaurerNonVide` | src/services/questions-du-jour.ts:293-312 | restoring never keeps an empty guild map |
| `ServiceQuestionsDuJour.NormaliserParticipationVersJson` | src/services/questions-du-jour.ts:326-348 | a serialised participation normalises back to itself |
| `ServiceQuestionsDuJour.GuildeAllerRetour` | src/services/questions-du-jour.ts:259-309 | a serialised guild record reads back unchanged |
| `ServiceQuestionsDuJour.GuildeNonPlate` | src/services/questions-du-jour.ts:283 | a non-empty serialised guild record is not shaped like a single participation |
| `ServiceQuestionsDuJour.ParGuildeMembre` | src/services/questions-du-jour.ts:299-313 | a guild is restored exactly when its raw record is an object with at least one participation that normalises, and it holds those participations |
| `ServiceQuestionsDuJour.ParGuildeExact` | src/services/questions-du-jour.ts:299-313 | a raw per-guild record whose guilds all read back as non-empty maps gives exactly those maps |
| `ServiceQuestionsDuJour.EntreesSerialisation` | src/services/questions-du-jour.ts:258-271 | the serialised record has one field per guild, holding that guild's record |
| `ServiceQuestionsDuJour.ParGuildeSerialisation` | src/services/questions-du-jour.ts:245-316 | serialised participants read per guild give the participants back |
| `ServiceQuestionsDuJour.RestaurerParGuilde` | src/services/questions-du-jour.ts:282-299 | a record with a field that is not a flat participation is read per guild |
| `ServiceQuestionsDuJour.RestaurerSerialisation` | src/services/questions-du-jour.ts:245-316 | participants written to the snapshot and restored come back unchanged |
| `ServiceQuestionsDuJour.RestaurerVide` | src/services/questions-du-jour.ts:277-296 | an empty record restores to no participants |
| `ServiceQuestionsDuJour.ChargerSnapshot` | src/services/questions-du-jour.ts:164-217 | loading the snapshot of a well-formed cache gives the cache back |
| `ServiceQuestionsDuJour.ChargerJeu` | src/services/questions-du-jour.ts:194-217 | loading the snapshot of one well-formed set gives the set back |
| `ServiceQuestionsDuJour.TrouverParticipantsPourGuilde` | src/services/questions-du-jour.ts:219-224 | the guild's own participants when it has some, else the legacy ones, and nothing exactly when neither exists |
| `ServiceQuestionsDuJour.GestionnaireQuestionsDuJour.ADejaRepondu` | src/services/questions-du-jour.ts:82-93 | a user has answered only on a known day, and only if listed in the guild's own participants or, when the guild has none, in the legacy ones |
| `ServiceQuestionsDuJour.SerialisationDe` | src/services/questions-du-jour.ts:245-272 | the serialised participants are an object with exactly one field per guild |
| `ServiceQuestionsDuJour.EstParticipationBrute` | src/services/questions-du-jour.ts:318-324 | a raw participation is anything `typeof` calls an object apart from null: a plain object or an array |
| `ServiceQuestionsDuJour.RestaurerParticipantsTelQuEcrit` | src/services/questions-du-jour.ts:274-316 | as written: a non-object gives nothing; a record all of whose values are objects, per-guild records included, lands under the legacy key; no empty guild is kept |
| `ServiceQuestionsDuJour.RestaurerParticipants` | src/services/questions-du-jour.ts:274-316 | corrected restore: a non-object gives nothing |
| `ServiceQuestionsDuJour.RestaurerParticipantsForme` | src/services/questions-du-jour.ts:274-316 | corrected restore: no empty guild is kept; a record of flat participations lands under the legacy key; any other record keeps exactly its guild records holding at least one participation |
| `ServiceQuestionsDuJour.SerialisationUne` | src/services/questions-du-jour.ts:258-271 | one guild with one participant serialises to a record with that guild as its only field |
| `ServiceQuestionsDuJour.GuildeSansChampsDeParticipation` | src/services/questions-du-jour.ts:318-341 | a guild record keyed by a user id has none of a participation's fields |
| `ServiceQuestionsDuJour.RestaurerTelQuEcritPerdLaGarde` | src/services/questions-du-jour.ts:282-324 | as written, restoring a per-guild snapshot moves everything under the legacy key as a bogus participation, and a user who had answered in the guild no longer counts as having answered |
| `ServiceQuestionsDuJour.RestaurerLegacyPlat` | src/services/questions-du-jour.ts:285-296 | flat legacy records still land under the legacy key with the corrected test |
| `ServiceQuestionsDuJour.ParticipationPlate` | src/services/questions-du-jour.ts:261-267 | a serialised participation is flat |
| `ServiceQuestionsDuJour.ExempleCacheParJour` | src/services/questions-du-jour.ts:68-80 | two requests for one day give the same set and the provider is asked three times in all |
| `ServiceQuestionsDuJour.ExempleParticipation` | src/services/questions-du-jour.ts:82-111 | a user has not answered before the write and has after it |
| `ServiceQuestionsDuJour.ExempleAucuneQuestion` | src/services/questions-du-jour.ts:149-152 | a provider with no question fails the request with the tier's message and caches nothing |
| `StockageQuestions.DepuisListe` | src/storage/questions.ts:34-46 | in the oldest format exactly the string elements become users, each recorded as a timeout at the fallback date |
| `StockageQuestions.ParticipationStockee` | src/storage/questions.ts:52-63 | a null value throws; otherwise a string answer is kept, an unknown status reads as incorrect and a missing date as the fallback |
| `StockageQuestions.NormaliserPlat` | src/storage/questions.ts:52-65 | a flat record reads every field as one participation, and throws when any field is null |
| `StockageQuestions.NormaliserParGuilde` | src/storage/questions.ts:52-65 | the corrected per-guild reading keeps exactly the guild fields that are objects |
| `StockageQuestions.NormaliserQuestionTrivia` | src/storage/questions.ts:75-106 | a question is kept exactly when it is an object with string id, text, answer and category; the tier is forced and only string choices are kept |
| `StockageQuestions.Chaines` | src/storage/questions.ts:99-103 | exactly the string elements are kept, never more than the list holds |
| `StockageQuestions.NormaliserJour` | src/storage/questions.ts:115-164 | a day is kept only when it and its tiers are objects and all three tiers carry a valid question; a throwing tier makes the whole read throw; the generation date falls back to now; participants go through the corrected normaliser |
| `StockageQuestions.Issues` | src/storage/questions.ts:115-165 | every stored day is examined on its own |
| `StockageQuestions.Normalisation` | src/storage/questions.ts:108-168 | the read fails exactly when some stored day throws; otherwise exactly the valid days are kept, each as normalised (participants through the corrected normaliser) |
| `StockageQuestions.NormaliserQuestions` | src/storage/questions.ts:108-168 | the loop over the stored days computes the normalised snapshot (participants through the corrected normaliser) |
| `StockageQuestions.NormaliserNiveau` | src/storage/questions.ts:136-155 | a kept tier has a question of that tier and participants in object form |
| `StockageQuestions.NormaliserNiveauIssues` | src/storage/questions.ts:136-155 | a tier is invalid exactly when its question is unusable, and throws exactly when the question is usable and the participants throw |
| `StockageQuestions.NormaliserParticipantsTelQuEcrit` | src/storage/questions.ts:28-66 | as written: a non-object gives no participants; an object is read flat, so its keys (guild ids of a per-guild record included) become the user ids; it throws exactly when one value is null |
| `StockageQuestions.NormaliserParticipants` | src/storage/questions.ts:28-66 | corrected normaliser: a non-object gives an empty record, a list always succeeds, and every result is an object |
| `StockageQuestions.NormaliserParticipantsCles` | src/storage/questions.ts:28-66 | corrected normaliser: a flat record throws exactly when one value is null and otherwise keeps its user ids; a per-guild record keeps exactly its guild records |
| `StockageQuestions.JoursGardesAjout` | src/storage/questions.ts:157-164 | examining one more day adds it exactly when it is kept |
| `StockageQuestions.CloneQuestions` | src/storage/questions.ts:170-207 | the copy equals its input |
| `StockageQuestions.ParticipationStockeeDefauts` | src/storage/questions.ts:54-56 | a participation with a missing status, a non-string answer and a missing date reads as incorrect, without an answer, at the fallback date |
| `StockageQuestions.NormaliserParticipantsAplatit` | src/storage/questions.ts:52-63 | as written, a per-guild record of a user who answered correctly is read back as one incorrect participation of a user named after the guild |
| `StockageQuestions.ParticipationStockeeVersJson` | src/storage/questions.ts:52-63 | a serialised participation is read back unchanged |
| `StockageQuestions.PlatGuildeVersJson` | src/storage/questions.ts:52-65 | a serialised guild record read flat gives the guild's participants back |
| `StockageQuestions.NormaliserLegacyPlat` | src/storage/questions.ts:52-65 | a flat legacy record passes through the corrected reader unchanged |
| `StockageQuestions.CorrigeEtendTelQuEcrit` | src/storage/questions.ts:28-66 | on arrays, non-objects and flat records the corrected reader reads exactly what the original reads |
| `StockageQuestions.ParGuildeDeSerialisation` | src/storage/questions.ts:52-65 | each guild record of a serialised per-guild record reads back as that guild's participants |
| `StockageQuestions.NormaliserSerialisation` | src/storage/questions.ts:28-66 | the per-guild record the question manager writes passes through the corrected reader unchanged |
| `StockageQuestions.EcrireLireRestaurer` | src/storage/questions.ts:28-66 | participants written by the question manager, read back from storage and restored are exactly what was written |
| `Texte.Split` | src/interactions/question-buttons.ts:277 | splitting always gives at least one piece, and no piece holds the separator |
| `Texte.SplitJoin` | src/bot/scheduler.ts:103-106 | splitting a joined id gives its pieces back when no piece holds the separator |
| `Texte.JoinSplit` | src/bot/leaderboard-announcer.ts:172 | joining the pieces of a split gives the text back |
| `Texte.SplitApresMorceau` | src/interactions/question-buttons.ts:277 | a piece without the separator, followed by the separator, is the first piece of the split |
| `Texte.ContainsSousChaine` | src/services/quizzapi.ts:83-86 | text holding a substring at some position contains it |
| `Texte.ContainsManque` | src/services/quizzapi.ts:83-86 | text lacking one character of the pattern does not contain it |
| `Texte.TrimStart` | src/interactions/question-buttons.ts:295 | the result is a suffix of the text that does not start with white space, and only white space was removed |
| `Texte.TrimEnd` | src/interactions/question-buttons.ts:295 | the result is a prefix of the text that does not end with white space, and only white space was removed |
| `Texte.Trim` | src/interactions/question-buttons.ts:295 | the trimmed text is no longer than the text and has no white space at either end |
| `Texte.TrimVide` | src/interactions/question-buttons.ts:295 | trimming leaves nothing exactly when the text is all white space |
| `Texte.TrimBords` | src/storage/guilds.ts:57 | trimmed text neither starts nor ends with white space |
| `Texte.TrimIdentite` | src/core/configuration-guildes.ts:74 | text without white space at either end is left as it is by trimming |
| `Texte.TrimIgnoreEspacesAutour` | src/interactions/question-buttons.ts:295 | white space around the text makes no difference to trimming |
| `Texte.TrimStartConcat` | src/interactions/question-buttons.ts:295 | trimming the start of a text followed by white space keeps that white space unless the text was blank |
| `Texte.Lower` | src/interactions/question-buttons.ts:296 | lower-casing keeps the length and maps each character on its own |
| `Texte.NatToString` | src/services/opentdb.ts:232 | the decimal text of a number is non-empty and all digits |
| `Texte.ValeurNatToString` | src/services/opentdb.ts:232 | the digits of a number's decimal text have that number as their value |
| `Texte.ParseIntNatToString` | src/interactions/question-buttons.ts:137 | reading back the decimal text of a natural number gives the number |
| `Texte.ParseIntMoins` | src/config/environnement.ts:28-29 | after a minus sign, the digits that follow are read and negated |
| `Texte.ParseIntIntToString` | src/bot/leaderboard-announcer.ts:178 | reading back the decimal text of any integer gives the integer |
| `Texte.ParseInt` | src/config/environnement.ts:28-29 | text starting with a digit reads as a non-negative number, a minus sign followed by a digit as a non-positive one |
| `Texte.ParseIntSansChiffre` | src/config/environnement.ts:28-29 | text without a single digit reads as NaN |
| `Texte.ParseIntNegatif` | src/bot/leaderboard-announcer.ts:178 | a minus sign followed by the decimal text of a number reads back as minus that number |
| `Texte.NatToStringInjectif` | src/services/opentdb.ts:232 | distinct numbers have distinct decimal texts |
| `Texte.PrefixeChiffres` | src/config/environnement.ts:28-29 | the digits read are the longest run of digits at the start |
| `Texte.Dedupliquer` | src/services/quizzapi.ts:69-71 | de-duplication never lengthens the list |
| `Texte.DedupliquerElements` | src/services/quizzapi.ts:69-71 | de-duplication keeps exactly the elements of the input |
| `Texte.DedupliquerSansDoublon` | src/services/quizzapi.ts:69-71 | the result holds no element twice |
| `Texte.DedupliquerPremier` | src/services/opentdb.ts:224 | the first element of the input, the right answer, stays first |
| `Texte.DedupliquerIdentite` | src/services/quizzapi.ts:69-71 | a list without duplicates is left as it is |
| `Texte.DedupliquerConcat` | src/services/quizzapi.ts:69-71 | appending elements keeps the de-duplicated prefix in front |
| `Texte.DedupliquerOrdre` | src/services/quizzapi.ts:69-71 | the kept elements come in the order of their first occurrences |
| `Commun.NiveauxExhaustifs` | src/services/questions-du-jour.ts:51 | the fixed list of tiers holds every tier |
| `Commun.RangNiveau` | src/services/questions-du-jour.ts:51 | every tier has its place in the fixed order |
| `Commun.NiveauDepuisTexte` | src/interactions/question-buttons.ts:281-284 | a tier is read back from exactly its own identifier, and anything else is unknown |
| `Commun.ToutesLesClesPresentes` | src/score/classement-service.ts:11 | a record with the four board keys holds every board |
| `Commun.Rang` | src/score/classement-service.ts:12 | every board type has its place in the fixed order |
| `Commun.TypeDepuisTexte` | src/bot/leaderboard-announcer.ts:51 | a board type is read back from exactly its own identifier, and anything else is unknown |
| `Commun.StatutDepuisTexte` | src/services/questions-du-jour.ts:337-338 | a status is read back from exactly its own identifier, and anything else is unknown |

## Left out

- The Discord client and its display are left out, because they are I/O rather than logic:
  - messages, embeds, menus and threads;
  - the countdown timer;
  - the display-only commands;
  - `genererEmbedClassement`, `annoncerClassementFinDeJournee` and the routing in `src/bot/dailytrivia.ts`.

  The scheduler takes the outcome of a post (message created or channel missing) as a parameter.
- HTTP calls, DeepL translation, base64 decoding and SHA-1 identifiers are parameters of the provider models, because they are foreign code.
- The promise queue `executerEnSerie` and every other form of concurrency are left out: the model is sequential. This includes the race between two cache misses of `obtenirJeuPour`.
- Timers are modelled as an optional armed delay. Nothing fires by itself; a cycle is run by calling `ExecuterCycle`.
- Filesystem reads and writes, `.env` loading and the `JSON.parse` failure fallbacks are left out:
  - The environment is a map.
  - A store's content is a `JsValue`.
  - A read that throws gives `None`, and the caller starts from an empty store.
- Time zones, daylight saving and ISO-8601 formatting are reduced to integer milliseconds in one fixed zone, because calendar handling is library code. Day keys and timestamps are given strings.
- Randomness is left out:
  - `Melanger` leaves the swap position open and proves the permutation for every choice.
  - The `Math.random` draw itself is not modelled.
- Unicode canonical decomposition and diacritic removal are left out. They are a parameter `retirer` that maps one character to its diacritic-free text; Unicode tables are not part of this model. `Lower` folds ASCII and Latin-1 capitals only.
- Strings are sequences of Unicode scalar values, whereas JavaScript strings are sequences of UTF-16 code units. Lengths, indices and `slice` (the 32-character cut of a fallback id, for one) therefore count differently for characters outside the Basic Multilingual Plane.
- The `onChange` persistence callbacks, object identity and the defensive clones are left out, because values are immutable in the model:
  - Each clone is proved equal to its input.
  - "The same object twice" becomes "the same value twice".
- The separator regular expression `[,\s]+` of the maintenance script is modelled one separator character at a time. Empty pieces are then dropped, which gives the same ids.
- Call sites pass more arguments than the shown services take:
  - six to `ajouterScore`;
  - three to `obtenirScoreUtilisateur`;
  - two to `obtenirSession`.

  They also read `session.guildId`. The model follows the shown service signatures, so there is no guild key and no period rollover on the boards, and sessions are keyed by day only. The guild of an answer is the interaction's guild.
- `Scoring.CalculerPoints`: the factor and the points are computed on exact reals, while the source computes them in IEEE double precision. Where the exact product lands on a half, the double can fall just below it and `Math.round` rounds down where the model rounds up. One such input: an easy answer 47 520 s after the announcement gives 22.499999999999996 in doubles, so 22 points, and exactly 22.5 in the model, so 23 points. Across the three tiers and the whole seconds of a day there are 34 such inputs (3 easy, 12 medium, 19 hard).
- `ServiceQuestionsDuJour.GestionnaireQuestionsDuJour.constructor`: the participants of a snapshot are restored by the corrected `RestaurerParticipants`, not by `RestaurerParticipantsTelQuEcrit`. Per-guild records therefore stay under their guild, whereas the source moves everything under `__legacy__` (first row of the findings).
- `ServiceQuestionsDuJour.ChargerDepuisSnapshot`: restores participants with the corrected `RestaurerParticipants`, as the constructor does, so per-guild records stay under their guild instead of being moved under `__legacy__`.
- `StockageQuestions.NormaliserJour`: reads participants with the corrected `NormaliserParticipants`, which normalises a per-guild record guild by guild instead of flattening it (second row of the findings). The corrected reader also throws on a null participation nested inside a guild record, such as `{"g": {"u": {"statut": "correct"}, "v": null}}`, where the source reads `g` as one participation and does not throw.
- `StockageQuestions.Normalisation`: built on `NormaliserJour`, so it inherits the corrected participants reader and its difference on nested null participations.
- `StockageQuestions.NormaliserQuestions`: built on `NormaliserJour`, so it inherits the corrected participants reader and its difference on nested null participations.
- `QuizzApi.IdentifiantDeSecours`: the time-stamped fallback id uses the instant passed in. `Date.now()` is not read.
- `StockageClassements.NormaliserEntree`: points must be a finite number, because ledger points are exact reals. An entry with ±Infinity points is dropped, whereas the source keeps it.
- `CoreClassements.Rejouee`: entries whose points are not finite are skipped. The source replays NaN and +Infinity points, which cannot be represented as reals.
- `Classements.ServiceClassements.ObtenirTop`: users with equal points come in an unspecified order. The source keeps the board's insertion order there.
- The singleton plumbing is reduced to the question manager's `ReinitialiserPour` followed by `ObtenirJeuPour`. This covers `src/core/gestionnaire-questions.ts`, `src/bot/scheduler-registry.ts` and the regenerate command.
- Logging is left out.

## Findings

| source | as written | input that shows it | evidently intended | confidence | as-written member | corrected member |
|---|---|---|---|---|---|---|
| src/services/questions-du-jour.ts:282-296, 318-324 | `restaurerParticipants` reads a record as flat legacy data when every value is a non-null object. That is also true of every per-guild record `serialiserParticipants` writes. | a snapshot whose participants are `{"g": {"u": {"reponse": "x", "statut": "correct", "reponduLe": "t"}}}`: after the reload everything sits under `__legacy__` as a participation of a user named `g`, and user `u` may answer again in guild `g` | flat legacy data is a record of participations, that is of objects none of whose fields is an object; per-guild records are read per guild and the replay guard survives a restart | high; not executed | `ServiceQuestionsDuJour.RestaurerTelQuEcritPerdLaGarde` | `ServiceQuestionsDuJour.RestaurerSerialisation` |
| src/storage/questions.ts:52-63 | `normaliserParticipants` reads every object as a flat record of participations, so it flattens the per-guild records the question manager saves | the per-guild record `{"g": {"u": {"reponse": "Réponse", "statut": "correct", ...}}}` is read back as `{"g": {"reponse": null, "statut": "incorrect", "reponduLe": <fallback>}}` | a per-guild record passes through unchanged, and a flat legacy record is read as before | high; not executed | `StockageQuestions.NormaliserParticipantsAplatit` | `StockageQuestions.EcrireLireRestaurer` |
