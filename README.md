# Superheroes API — a verified model of its validation and persistence rules

The Superheroes service is a small REST API over three tables: heroes, powers
and `hero_powers`, a many-to-many join that carries a strength. This project
models its entity rules and its write handlers' commit/rollback behaviour as a
sequential state machine over an in-memory database, and proves what those
rules promise.

Modules:

- `Json` (json.dfy): the values a JSON request body decodes to. It also holds
  the two Python behaviours the code depends on: truthiness (`not v`) and `len(v)`.
- `Models` (models.dfy): the `Hero`, `Power` and `HeroPower` rows. Also:
  - the description and strength validators, with Python's exact branch order;
  - the three `to_dict` projections, each with an inverse;
  - how a value is stored in a String column (SQLite TEXT affinity);
  - the database as `Tables` (one map per table from id to row, plus the next
    id of each table) and its integrity invariant `Consistent`;
  - single-row inserts and updates, and the cascading deletes of the
    Hero→HeroPower and Power→HeroPower relationships;
  - each table's rows in id order.
- `App` (app.dfy): the handlers.
  - The missing-field check and its message.
  - The read handlers, as functions of the tables.
  - One pure step function per write handler. It maps the tables before the
    request to the response, the tables after it, and the notification sent.
  - `Mailer`, the mail helper. `delivered` is the transport's outcome, given as
    an argument.
  - `Store`, a class whose map fields the handlers update in place. Each method
    is proved to take exactly its step. So `delivered` never affects a write
    handler's response or the stored data.
- `Seed` (seed.dfy): the seeding script. It clears the tables, then inserts the
  fixture powers, heroes and associations in the script's order, one commit per
  batch. The result is shown to satisfy every integrity rule.

In three places the model follows the code where one might expect otherwise:

- The 20-character limits on names and strengths are column type hints that
  nothing enforces, so the model does not enforce them.
- `create_hero` answers every failure with one generic message.
- PATCH without a `description` field still commits, sends a notification and
  answers 200.

## Model

| member | source | states |
|---|---|---|
| Models.ValidateDescription | Development/code/phase-4/Superheroes/models.py:42-46 | Accepts exactly the sized values (text, list, dict) of length at least 20 and returns them unchanged. Every falsy value, and every sized value shorter than 20, is a ValueError with "Description must be at least 20 characters long". A truthy integer or boolean makes `len` raise instead. |
| Models.DescriptionOfText | Development/code/phase-4/Superheroes/models.py:44-46 | For text, the validator accepts iff the text has at least 20 characters (so the empty text is rejected), and otherwise gives the description message. |
| Models.ValidateStrength | Development/code/phase-4/Superheroes/models.py:74-80 | Accepts exactly the strings "Strong", "Weak" and "Average" and returns them unchanged. Everything else is rejected with "Strength must be one of: Strong, Weak, Average". |
| Models.StrengthIsCaseSensitive | Development/code/phase-4/Superheroes/models.py:76-78 | Other spellings ("strong", "AVERAGE"), other words and null are all rejected with the strength message. |
| Models.HeroToDict | Development/code/phase-4/Superheroes/models.py:19-24 | The projection has exactly the keys id, name and super_name, and reading it back gives the hero. |
| Models.PowerToDict | Development/code/phase-4/Superheroes/models.py:50-55 | The projection has exactly the keys id, name and description, and reading it back gives the power. |
| Models.HeroPowerToDict | Development/code/phase-4/Superheroes/models.py:87-95 | The projection has exactly the keys id, strength, hero_id, power_id, hero and power. The nested hero and power equal those rows' own projections, and reading it back gives all three rows. |
| Models.ColumnText | Development/code/phase-4/Superheroes/models.py:12-13 | A value can be committed to a non-null String column iff it is text, a boolean, or a 64-bit integer. Text is kept as it is; an integer becomes decimal text that reads back as the same number. |
| Models.DecimalRoundTrip | Development/code/phase-4/Superheroes/models.py:12-13 | Converting an integer to the text a String column stores loses nothing: parsing it gives the integer back. |
| Models.Consistent | Development/code/phase-4/Superheroes/models.py:65-68 | The integrity invariant: every join row's hero_id and power_id name a stored hero and power, each row sits under its own id, every id is below its table's next id, every stored description has at least 20 characters and every stored strength is an allowed one. |
| Models.StoredRowsPassValidators | Development/code/phase-4/Superheroes/models.py:42-80 | In a consistent database every stored description passes the description validator and every stored strength passes the strength validator. |
| Models.InsertHero | app.py:200-206 | Adding a hero under the next id adds exactly one row and keeps the database consistent. |
| Models.InsertHeroPower | Development/code/phase-4/Superheroes/models.py:65-68 | A join row with an allowed strength and two existing ends can be added under the next id. This adds exactly one row and keeps every row's references resolving. |
| Models.SetDescription | app.py:120-122 | Changing one power's description to one of at least 20 characters changes only that field and keeps the database consistent. |
| Models.DeleteHero | Development/code/phase-4/Superheroes/models.py:15 | Deleting a hero removes that hero and exactly the join rows whose hero_id is the hero. Every other row stays the same, and consistency is kept. |
| Models.DeletePower | Development/code/phase-4/Superheroes/models.py:37 | Deleting a power removes that power and exactly the join rows whose power_id is the power. Every other row stays the same, and consistency is kept. |
| Models.IdsInOrder | app.py:74 | The listed ids are exactly the stored ids below the next id, strictly ascending (the order rows are read back in). |
| Models.HeroRows | app.py:74 | Every stored hero appears, every element is a stored hero, and ids ascend, so each row appears exactly once. |
| Models.PowerRows | app.py:99 | Every stored power appears, every element is a stored power, and ids ascend, so each row appears exactly once. |
| Models.HeroPowersOf | Development/code/phase-4/Superheroes/models.py:15 | A hero's `hero_powers` are exactly the stored join rows whose hero_id is that hero, in id order. |
| App.Missing | app.py:55 | A field is reported missing iff it is required and absent from the request. |
| App.MissingKeepsOrder | app.py:145 | The missing-field list keeps the order of the required list (it distributes over concatenation). |
| App.MissingAll | app.py:196 | When no required field is present, all of them are reported, in the required order. |
| App.JoinMentions | app.py:57 | Each element of a joined list appears, unchanged, at a computed offset of the joined text. |
| App.MissingMessage | app.py:57 | The message begins with "Missing required fields: ". |
| App.MissingMessageMentions | app.py:147 | The message names every missing field in full, after the prefix. |
| App.IdOf | app.py:149-150 | A request value names a row id iff it is an integer or a boolean. An integer names itself; True names 1 and False names 0, as in Python. |
| App.PowerUpdatedNotice | app.py:125-129 | The notice has subject "Power Updated", goes to the given address, has no rich-text body, and its text starts with "Power '", names the power right after it, and ends with the new description. |
| App.HeroPowerCreatedNotice | app.py:167-177 | The notice has subject "New Hero Power Created", goes to the given address, has a rich-text body, and its text starts "New hero power created: " followed by the hero's name and ends with the strength. |
| App.HeroRegisteredNotice | app.py:209-219 | The notice has subject "New Hero Registered", goes to the given address, has a rich-text body, and its text starts "A new hero has been registered: " followed by the hero's name and ends with the super name and a closing parenthesis. |
| App.Mailer.Send | app.py:30-43 | The helper never fails. It records the attempt and returns true iff the transport delivered. |
| App.GetHeroes | app.py:72-75 | 200 with one hero projection per stored hero, each a stored hero, in ascending id order. |
| App.GetPowers | app.py:97-100 | 200 with one power projection per stored power, each a stored power, in ascending id order. |
| App.GetPowerById | app.py:103-108 | 404 with "Power not found" iff the id is not stored; otherwise 200 with that power's projection. |
| App.HeroPowerEntry | app.py:86-92 | An element of `hero_powers` has exactly the keys id, strength, power_id, hero_id and power, and the power is that power's projection. The join row can be read back from it. |
| App.HeroPowerList | app.py:85-93 | The `hero_powers` list has one element for every join row of the hero, and every element is the element of one of the hero's join rows, with its power's projection. The elements' ids strictly ascend, so each join row appears exactly once. |
| App.EntriesInOrder | app.py:85-93 | The elements built from a hero's join rows carry those rows' ids in strictly ascending order. |
| App.HeroDetail | app.py:84-94 | The detail is the hero's projection plus exactly one further key, hero_powers, holding the hero's association list. |
| App.GetHeroById | app.py:78-82 | 404 with "Hero not found" iff the id is not stored; otherwise 200 with the hero's detail. |
| App.UpdatePowerStep | app.py:111-137 | See the first note below the table. |
| App.CreateHeroPowerStep | app.py:140-188 | See the second note below the table. |
| App.CreateHeroStep | app.py:191-224 | 400 with the missing-field message when a field is absent. Otherwise 201 iff both names can be stored: exactly one hero, with the stored names and the next id, is added and returned, and one notification is sent. Every failure is 400 "An error occurred while creating the hero", with the tables unchanged and nothing sent. Consistency is kept. |
| App.SendEmailStep | app.py:50-69 | 400 with the missing-field message iff a field is absent, and then no message is handed over. Otherwise the message, with its optional rich-text body, is handed to the helper. The answer is 200 with "Email sent successfully" iff delivery succeeded, else 500 with "Failed to send email". |
| App.SendEmail | app.py:59-69 | The send-email handler answers as its step says and hands the helper exactly the message the step names. |
| App.Store.UpdatePower | app.py:119-131 | The handler, updating the store in place, gives exactly the step's response, new tables and notification, whatever the transport does. The store stays consistent. |
| App.Store.CreateHeroPower | app.py:157-179 | The handler gives exactly the step's response, new tables and notification, whatever the transport does. The store stays consistent. |
| App.Store.CreateHero | app.py:200-221 | The handler gives exactly the step's response, new tables and notification, whatever the transport does. The store stays consistent. |
| App.CreatedHeroIsServed | app.py:78-94 | After a 201 from POST /heroes, GET /heroes/<new id> answers 200 with an empty hero_powers list, and the creation response reads back as the stored hero. |
| App.UpdatedPowerIsServed | app.py:103-131 | After a 200 from PATCH, GET /powers/<id> answers exactly what the PATCH returned. |
| App.CreatedHeroPowerIsListed | app.py:84-94 | After a 201 from POST /hero_powers, the hero is served and its hero_powers list contains the new association. |
| Seed.ClearAll | seed.py:8-10 | Emptying the three tables leaves a consistent database with no rows, and every id counter restarts at 1. |
| Seed.AddRowsStores | seed.py:30-31 | Adding a batch of rows in order keeps every earlier row under its id, stores the i-th added row under the i-th next id, and stores nothing else. |
| Seed.InsertPowers | seed.py:13-31 | The i-th listed power is stored, with its name and description, under the i-th next id. Every power stored before keeps its row, no other id is taken, and the other tables and counters are unchanged. |
| Seed.InsertHeroes | seed.py:47-53 | The i-th listed hero is stored, with its name and super name, under the i-th next id. Every hero stored before keeps its row, no other id is taken, and the other tables and counters are unchanged. |
| Seed.InsertHeroPowers | seed.py:56-66 | The i-th listed association is stored, with its strength, hero id and power id, under the i-th next id. Every association stored before keeps its row, no other id is taken, and heroes and powers are unchanged. |
| Seed.PowersCommitted | seed.py:8-31 | After the first commit the database is consistent, id k (1 to 4) holds the k-th fixture power, no hero or association is stored, and the next ids are 5, 1 and 1. |
| Seed.HeroesCommitted | seed.py:8-53 | After the second commit the database is consistent, the powers are those of the first commit, id k (1 to 10) holds the k-th fixture hero, no association is stored, and the next ids are 5, 11 and 1. |
| Seed.SeedTables | seed.py:8-66 | The seeded database, whatever it held before, is consistent. Its heroes and powers are those of the second commit, id k (1 to 6) holds the k-th fixture association, and the next ids are 5, 11 and 7. |

Notes on two rows of the table:

- `App.UpdatePowerStep` states:
  - 404 "Power not found" iff the id is unknown.
  - 200 iff the id is known and the request either has no description or has
    a text description of at least 20 characters.
  - A description the validator rejects gives 400 with its message.
  - Any other failure gives 400 with the generic message.
  - On failure the tables are unchanged and nothing is sent.
  - On success only that power's description changes (to the given text), the
    updated projection is returned and one notification is sent.
  - Consistency is kept.
- `App.CreateHeroPowerStep` states:
  - The checks run in this order: missing fields, then an unknown hero, then an
    unknown power, then a rejected strength. Each is a 400 with its own message.
  - 201 iff all of them pass.
  - On failure the tables are unchanged and nothing is sent.
  - On success exactly one row is added, with the request's strength and ids
    and the next id. The nested projection is returned and one notification
    is sent.
  - Consistency is kept.

## Left out

- HTTP routing, request parsing and `jsonify`. Handlers take the request body as
  a map from field name to value, and path ids as integers. The index route
  (app.py:45-47) is not modelled. A request body that is not a JSON object is
  not modelled either.
- JSON floating-point numbers. Numbers are modelled as integers only.
- The mail transport and its configuration. Its outcome is the `delivered`
  argument. The address notifications go to is a constructor argument
  (`Store.notifyTo`) rather than the configured literal. The helper's
  console logging is left out.
- The ORM session, migrations and the SQLite engine. Commit and rollback are
  modelled by their effect: a failed request leaves the tables as they were.
  The `IntegrityError` branch of `create_hero_power` (app.py:183-185) is not
  modelled. Both references are checked before the insert, so in a
  sequential model that branch cannot be reached.
- App.IdOf: a text id such as "1" is treated as naming no row. SQLite's
  integer affinity would resolve it.
- App.IdOf: a list or dict id is treated as naming no row. The ORM would
  misread it or raise.
- App.GetHeroById: a path id outside 64 bits is answered 404 here. The source's
  `Query.get` (app.py:80) makes the driver raise outside any try block, so it
  answers 500. The model keeps no 64-bit bound on stored ids, and with one the
  500 branch would reach every handler and lemma that reads a row by id.
- App.GetPowerById: a path id outside 64 bits is answered 404 here, while the
  source's `Query.get` (app.py:105) raises and it answers 500.
- App.UpdatePowerStep: a path id outside 64 bits is answered 404 here, while
  the source's `Query.get` (app.py:113) raises before the try block and it
  answers 500.
- App.IdOf: an integer id outside 64 bits, for which the driver raises and the
  request fails with an unhandled error, is treated as naming no row.
- Row ids come from a per-table counter that stays above every stored id.
  SQLite's reuse of the largest id after that row is deleted is not modelled.
  No handler deletes rows.
- The order in which listings and `hero_powers` are returned is modelled as
  ascending id, the order SQLite reads rows back in without `ORDER BY`. The
  source does not fix that order.
- The cascading deletes are modelled as functions on the tables. No handler
  deletes a hero or a power.
- The `String(20)`/`String(255)` column lengths are not modelled. SQLite does
  not enforce them, and no code checks them.
- The seeding script's console output is left out, and so are the `__repr__`
  methods. The seed's inserts are modelled as batches on the tables; the
  validators are requirements of each batch, as they run when the script
  builds each row.
