/**
 * The request handlers of the superhero API over an in-memory database.
 *
 * A request body is a map from field name to JSON value. Each write handler
 * is specified by a pure step function from the tables before the request to
 * the response, the tables after it, and the notification it asks the mail
 * helper to send (if any); `Store`'s methods are the handlers themselves,
 * updating the tables in place, and are proved to take exactly those steps.
 * The mail transport's outcome is a `bool` argument that no step function
 * depends on, except that of the dedicated send-email endpoint.
 */
module App {
  import opened Wrappers
  import opened Json
  import opened Models

  datatype Response = Response(status: int, body: Value)

  /** `{"errors": [msg]}` */
  function ErrorsBody(msg: string): Value {
    JObj(map["errors" := JArr([JStr(msg)])])
  }

  /** `{"error": msg}` */
  function ErrorBody(msg: string): Value {
    JObj(map["error" := JStr(msg)])
  }

  const HeroNotFound: string := "Hero not found"
  const PowerNotFound: string := "Power not found"
  const UpdatePowerFailed: string := "An error occurred while updating the power"
  const CreateHeroFailed: string := "An error occurred while creating the hero"
  const EmailSent: string := "Email sent successfully"
  const EmailFailed: string := "Failed to send email"

  const EmailFields: seq<string> := ["recipient", "subject", "body"]
  const HeroPowerFields: seq<string> := ["strength", "hero_id", "power_id"]
  const HeroFields: seq<string> := ["name", "super_name"]

  // ---------------------------------------------------------------------------
  // The missing-field check
  // ---------------------------------------------------------------------------

  /** The required fields absent from the request, in the order they are required. */
  function Missing(required: seq<string>, data: map<string, Value>): (r: seq<string>)
    ensures forall f :: f in r <==> f in required && f !in data
    ensures |r| <= |required|
  {
    if required == [] then []
    else (if required[0] in data then [] else [required[0]]) + Missing(required[1..], data)
  }

  /** The check keeps the order of the required list: it distributes over concatenation. */
  lemma {:induction false} MissingKeepsOrder(a: seq<string>, b: seq<string>, data: map<string, Value>)
    ensures Missing(a + b, data) == Missing(a, data) + Missing(b, data)
  {
    if a == [] {
      assert a + b == b;
    } else {
      var head := if a[0] in data then [] else [a[0]];
      var ab := a + b;
      assert ab[0] == a[0] && ab[1..] == a[1..] + b;
      MissingKeepsOrder(a[1..], b, data);
      calc {
        Missing(ab, data);
        head + Missing(a[1..] + b, data);
        head + (Missing(a[1..], data) + Missing(b, data));
        (head + Missing(a[1..], data)) + Missing(b, data);
      }
    }
  }

  /** With none of the required fields present, all of them are reported, in order. */
  lemma {:induction false} MissingAll(required: seq<string>, data: map<string, Value>)
    requires forall f :: f in required ==> f !in data
    ensures Missing(required, data) == required
  {
    if required != [] {
      MissingAll(required[1..], data);
    }
  }

  /** Python's `sep.join(xs)`. */
  function Join(xs: seq<string>, sep: string): string
  {
    if xs == [] then "" else if |xs| == 1 then xs[0] else xs[0] + sep + Join(xs[1..], sep)
  }

  /** Where the `i`-th element starts in `Join(xs, sep)`. */
  function JoinOffset(xs: seq<string>, sep: string, i: nat): nat
    requires i < |xs|
  {
    if i == 0 then 0 else |xs[0]| + |sep| + JoinOffset(xs[1..], sep, i - 1)
  }

  /** Every element is spelled out, unchanged, in the joined text. */
  lemma {:induction false} JoinMentions(xs: seq<string>, sep: string, i: nat)
    requires i < |xs|
    ensures JoinOffset(xs, sep, i) + |xs[i]| <= |Join(xs, sep)|
    ensures Join(xs, sep)[JoinOffset(xs, sep, i)..JoinOffset(xs, sep, i) + |xs[i]|] == xs[i]
  {
    if i == 0 {
      if |xs| > 1 {
        assert Join(xs, sep) == xs[0] + (sep + Join(xs[1..], sep));
      }
    } else {
      JoinMentions(xs[1..], sep, i - 1);
      var rest := Join(xs[1..], sep);
      var k := JoinOffset(xs[1..], sep, i - 1);
      assert Join(xs, sep) == (xs[0] + sep) + rest;
      assert Join(xs, sep)[|xs[0] + sep| + k..|xs[0] + sep| + k + |xs[i]|] == rest[k..k + |xs[i]|];
    }
  }

  const MissingPrefix: string := "Missing required fields: "

  /** The single message the handlers return when fields are missing. */
  function MissingMessage(missing: seq<string>): (m: string)
    ensures |m| >= |MissingPrefix| && m[..|MissingPrefix|] == MissingPrefix
  {
    MissingPrefix + Join(missing, ", ")
  }

  /** The message names every missing field, in full, after the prefix. */
  lemma MissingMessageMentions(missing: seq<string>, i: nat)
    requires i < |missing|
    ensures var at := |MissingPrefix| + JoinOffset(missing, ", ", i);
            at + |missing[i]| <= |MissingMessage(missing)|
            && MissingMessage(missing)[at..at + |missing[i]|] == missing[i]
  {
    JoinMentions(missing, ", ", i);
    var j := Join(missing, ", ");
    var k := JoinOffset(missing, ", ", i);
    assert MissingMessage(missing)[|MissingPrefix| + k..|MissingPrefix| + k + |missing[i]|] == j[k..k + |missing[i]|];
  }

  // ---------------------------------------------------------------------------
  // Looking a row up by a request value (Query.get)
  // ---------------------------------------------------------------------------

  /**
   * The primary key a request value names: an integer, or a boolean, which
   * Python treats as the integer 1 or 0. Other values name no row.
   */
  function IdOf(v: Value): (r: Option<int>)
    ensures r.Some? <==> v.JInt? || v.JBool?
    ensures v.JInt? ==> r == Some(v.i)
    ensures v.JBool? ==> r == Some(if v.b then 1 else 0)
  {
    match v
    case JInt(i) => Some(i)
    case JBool(b) => Some(if b then 1 else 0)
    case _ => None
  }

  /** The request names an existing hero in its `hero_id` field. */
  predicate HeroFound(t: Tables, data: map<string, Value>) {
    "hero_id" in data && IdOf(data["hero_id"]).Some? && IdOf(data["hero_id"]).value in t.heroes
  }

  /** The request names an existing power in its `power_id` field. */
  predicate PowerFound(t: Tables, data: map<string, Value>) {
    "power_id" in data && IdOf(data["power_id"]).Some? && IdOf(data["power_id"]).value in t.powers
  }

  // ---------------------------------------------------------------------------
  // Notifications
  // ---------------------------------------------------------------------------

  /** What the mail helper is asked to send; `html` is JNull when there is no rich-text body. */
  datatype Message = Message(subject: Value, recipient: Value, body: Value, html: Value)

  function NoticeList(n: Option<Message>): seq<Message> {
    if n.Some? then [n.value] else []
  }

  const PowerUpdatedPrefix: string := "Power '"

  /** The notice of an updated power names the power and ends with its new description. */
  function PowerUpdatedNotice(p: Power, to: string): (m: Message)
    ensures m.subject == JStr("Power Updated") && m.recipient == JStr(to) && m.html == JNull
    ensures m.body.JStr? && |m.body.s| >= |PowerUpdatedPrefix| + |p.name| + |p.description|
    ensures m.body.s[..|PowerUpdatedPrefix|] == PowerUpdatedPrefix
    ensures m.body.s[|PowerUpdatedPrefix|..|PowerUpdatedPrefix| + |p.name|] == p.name
    ensures m.body.s[|m.body.s| - |p.description|..] == p.description
  {
    Message(JStr("Power Updated"), JStr(to),
            JStr(PowerUpdatedPrefix + p.name + "' has been updated with new description: " + p.description),
            JNull)
  }

  const HeroPowerCreatedPrefix: string := "New hero power created: "

  /**
   * The notice of a new association names the hero first and ends with the
   * strength; it also has a rich-text body.
   */
  function HeroPowerCreatedNotice(hero: Hero, power: Power, strength: string, to: string): (m: Message)
    ensures m.subject == JStr("New Hero Power Created") && m.recipient == JStr(to) && m.html.JStr?
    ensures m.body.JStr? && |m.body.s| >= |HeroPowerCreatedPrefix| + |hero.name| + |strength|
    ensures m.body.s[..|HeroPowerCreatedPrefix|] == HeroPowerCreatedPrefix
    ensures m.body.s[|HeroPowerCreatedPrefix|..|HeroPowerCreatedPrefix| + |hero.name|] == hero.name
    ensures m.body.s[|m.body.s| - |strength|..] == strength
  {
    Message(JStr("New Hero Power Created"), JStr(to),
            JStr(HeroPowerCreatedPrefix + hero.name + " now has " + power.name
                 + " with strength " + strength),
            JStr("\n            <h2>New Hero Power Created</h2>"
                 + "\n            <p><strong>Hero:</strong> " + hero.name + "</p>"
                 + "\n            <p><strong>Power:</strong> " + power.name + "</p>"
                 + "\n            <p><strong>Strength:</strong> " + strength + "</p>"
                 + "\n            "))
  }

  const HeroRegisteredPrefix: string := "A new hero has been registered: "

  /**
   * The welcome notice names the hero right after its fixed opening and ends
   * with the super name in parentheses; it also has a rich-text body.
   */
  function HeroRegisteredNotice(hero: Hero, to: string): (m: Message)
    ensures m.subject == JStr("New Hero Registered") && m.recipient == JStr(to) && m.html.JStr?
    ensures m.body.JStr? && |m.body.s| >= |HeroRegisteredPrefix| + |hero.name| + |hero.superName| + 1
    ensures m.body.s[..|HeroRegisteredPrefix|] == HeroRegisteredPrefix
    ensures m.body.s[|HeroRegisteredPrefix|..|HeroRegisteredPrefix| + |hero.name|] == hero.name
    ensures m.body.s[|m.body.s| - |hero.superName| - 1..] == hero.superName + ")"
  {
    Message(JStr("New Hero Registered"), JStr(to),
            JStr(HeroRegisteredPrefix + hero.name + " (aka " + hero.superName + ")"),
            JStr("\n            <h2>New Hero Registration</h2>"
                 + "\n            <p><strong>Name:</strong> " + hero.name + "</p>"
                 + "\n            <p><strong>Super Name:</strong> " + hero.superName + "</p>"
                 + "\n            <p>Welcome to the superhero database!</p>"
                 + "\n            "))
  }

  /**
   * The mail transport. `attempts` records every message the helper was
   * asked to send, delivered or not.
   */
  class Mailer {
    var attempts: seq<Message>

    constructor ()
      ensures attempts == []
    {
      attempts := [];
    }

    /**
     * send_notification_email: never raises; whatever the transport does is
     * reported as `true` (delivered) or `false` (the exception was swallowed).
     */
    method Send(m: Message, delivered: bool) returns (ok: bool)
      modifies this
      ensures ok == delivered
      ensures attempts == old(attempts) + [m]
    {
      attempts := attempts + [m];
      ok := delivered;
    }
  }

  // ---------------------------------------------------------------------------
  // Read handlers
  // ---------------------------------------------------------------------------

  /** `[f(x) for x in s]` */
  function MapSeq<A, B>(s: seq<A>, f: A -> B): (r: seq<B>)
    ensures |r| == |s| && forall i :: 0 <= i < |s| ==> r[i] == f(s[i])
    ensures forall x :: x in s ==> f(x) in r
  {
    if s == [] then [] else [f(s[0])] + MapSeq(s[1..], f)
  }

  /** GET /heroes: one projection per stored hero, in id order. */
  function GetHeroes(t: Tables): (r: Response)
    requires Consistent(t)
    ensures r.status == 200 && r.body.JArr?
    ensures forall k :: k in t.heroes ==> HeroToDict(t.heroes[k]) in r.body.items
    ensures forall i :: 0 <= i < |r.body.items| ==>
              && HeroFromDict(r.body.items[i]).Some?
              && HeroFromDict(r.body.items[i]).value.id in t.heroes
              && t.heroes[HeroFromDict(r.body.items[i]).value.id] == HeroFromDict(r.body.items[i]).value
    ensures forall i, j :: 0 <= i < j < |r.body.items| ==>
              HeroFromDict(r.body.items[i]).value.id < HeroFromDict(r.body.items[j]).value.id
  {
    Response(200, JArr(MapSeq(HeroRows(t), HeroToDict)))
  }

  /** GET /powers: one projection per stored power, in id order. */
  function GetPowers(t: Tables): (r: Response)
    requires Consistent(t)
    ensures r.status == 200 && r.body.JArr?
    ensures forall k :: k in t.powers ==> PowerToDict(t.powers[k]) in r.body.items
    ensures forall i :: 0 <= i < |r.body.items| ==>
              && PowerFromDict(r.body.items[i]).Some?
              && PowerFromDict(r.body.items[i]).value.id in t.powers
              && t.powers[PowerFromDict(r.body.items[i]).value.id] == PowerFromDict(r.body.items[i]).value
    ensures forall i, j :: 0 <= i < j < |r.body.items| ==>
              PowerFromDict(r.body.items[i]).value.id < PowerFromDict(r.body.items[j]).value.id
  {
    Response(200, JArr(MapSeq(PowerRows(t), PowerToDict)))
  }

  /** GET /powers/<id>: the projection, or 404 exactly when no such power is stored. */
  function GetPowerById(t: Tables, id: int): (r: Response)
    ensures r.status == 404 <==> id !in t.powers
    ensures r.status == 404 ==> r.body == ErrorBody(PowerNotFound)
    ensures r.status != 404 ==> r.status == 200 && PowerFromDict(r.body) == Some(t.powers[id])
  {
    if id !in t.powers then Response(404, ErrorBody(PowerNotFound))
    else Response(200, PowerToDict(t.powers[id]))
  }

  /** One element of a hero's `hero_powers` list: the row's columns and its power's projection. */
  function HeroPowerEntry(hp: HeroPower, power: Power): (r: Value)
    requires power.id == hp.powerId
    ensures r.JObj? && r.fields.Keys == {"id", "strength", "power_id", "hero_id", "power"}
    ensures r.fields["power"] == PowerToDict(power)
    ensures EntryRow(r) == Some(hp)
  {
    JObj(map["id" := JInt(hp.id), "strength" := JStr(hp.strength), "power_id" := JInt(hp.powerId),
             "hero_id" := JInt(hp.heroId), "power" := PowerToDict(power)])
  }

  /** Reads the join row back out of a `hero_powers` element. */
  function EntryRow(v: Value): Option<HeroPower>
  {
    if v.JObj? && "id" in v.fields && "strength" in v.fields && "power_id" in v.fields
       && "hero_id" in v.fields && v.fields["id"].JInt? && v.fields["strength"].JStr?
       && v.fields["power_id"].JInt? && v.fields["hero_id"].JInt?
    then Some(HeroPower(v.fields["id"].i, v.fields["strength"].s,
                        v.fields["hero_id"].i, v.fields["power_id"].i))
    else None
  }

  /** The `id` field of a `hero_powers` element (0 when it has none). */
  function EntryId(v: Value): int
  {
    if EntryRow(v).Some? then EntryRow(v).value.id else 0
  }

  /** The `hero_powers` elements for the join rows `rows`, in order. */
  function Entries(t: Tables, rows: seq<HeroPower>): (r: seq<Value>)
    requires Consistent(t) && forall i :: 0 <= i < |rows| ==> rows[i].powerId in t.powers
    ensures |r| == |rows|
    ensures forall i :: 0 <= i < |rows| ==> r[i] == HeroPowerEntry(rows[i], t.powers[rows[i].powerId])
  {
    if rows == [] then []
    else [HeroPowerEntry(rows[0], t.powers[rows[0].powerId])] + Entries(t, rows[1..])
  }

  /** Every join row of the hero has its element in the list. */
  lemma EntriesCoverHero(t: Tables, id: int)
    requires Consistent(t)
    ensures forall k :: k in t.heroPowers && t.heroPowers[k].heroId == id ==>
              HeroPowerEntry(t.heroPowers[k], t.powers[t.heroPowers[k].powerId]) in Entries(t, HeroPowersOf(t, id))
  {
    var rows := HeroPowersOf(t, id);
    var r := Entries(t, rows);
    forall k | k in t.heroPowers && t.heroPowers[k].heroId == id
      ensures HeroPowerEntry(t.heroPowers[k], t.powers[t.heroPowers[k].powerId]) in r
    {
      var hp := t.heroPowers[k];
      var i :| 0 <= i < |rows| && rows[i] == hp;
      assert r[i] == HeroPowerEntry(hp, t.powers[hp.powerId]);
    }
  }

  /** Every element of the list is the element of one of the hero's join rows. */
  lemma EntriesOnlyOfHero(t: Tables, id: int)
    requires Consistent(t)
    ensures forall e :: e in Entries(t, HeroPowersOf(t, id)) ==>
              && EntryRow(e).Some?
              && EntryRow(e).value.id in t.heroPowers
              && t.heroPowers[EntryRow(e).value.id] == EntryRow(e).value
              && EntryRow(e).value.heroId == id
              && e == HeroPowerEntry(EntryRow(e).value, t.powers[EntryRow(e).value.powerId])
  {
    var rows := HeroPowersOf(t, id);
    var r := Entries(t, rows);
    forall e | e in r
      ensures && EntryRow(e).Some?
              && EntryRow(e).value.id in t.heroPowers
              && t.heroPowers[EntryRow(e).value.id] == EntryRow(e).value
              && EntryRow(e).value.heroId == id
              && e == HeroPowerEntry(EntryRow(e).value, t.powers[EntryRow(e).value.powerId])
    {
      var i :| 0 <= i < |r| && r[i] == e;
      assert EntryRow(e) == Some(rows[i]);
    }
  }

  /** The list follows the join rows' id order, so each row has exactly one element. */
  lemma EntriesInOrder(t: Tables, id: int)
    requires Consistent(t)
    ensures var r := Entries(t, HeroPowersOf(t, id));
            forall i, j :: 0 <= i < j < |r| ==> EntryId(r[i]) < EntryId(r[j])
  {
    var rows := HeroPowersOf(t, id);
    var r := Entries(t, rows);
    forall i | 0 <= i < |r| ensures EntryId(r[i]) == rows[i].id {
      assert r[i] == HeroPowerEntry(rows[i], t.powers[rows[i].powerId]);
    }
  }

  /** A hero's `hero_powers`: exactly its join rows, each with its power's projection. */
  function HeroPowerList(t: Tables, id: int): (r: seq<Value>)
    requires Consistent(t)
    ensures forall k :: k in t.heroPowers && t.heroPowers[k].heroId == id ==>
              HeroPowerEntry(t.heroPowers[k], t.powers[t.heroPowers[k].powerId]) in r
    ensures forall e :: e in r ==>
              && EntryRow(e).Some?
              && EntryRow(e).value.id in t.heroPowers
              && t.heroPowers[EntryRow(e).value.id] == EntryRow(e).value
              && EntryRow(e).value.heroId == id
              && e == HeroPowerEntry(EntryRow(e).value, t.powers[EntryRow(e).value.powerId])
    ensures forall i, j :: 0 <= i < j < |r| ==> EntryId(r[i]) < EntryId(r[j])
  {
    EntriesCoverHero(t, id);
    EntriesOnlyOfHero(t, id);
    EntriesInOrder(t, id);
    Entries(t, HeroPowersOf(t, id))
  }

  /**
   * GET /heroes/<id> body: the hero's projection plus `hero_powers`, which
   * lists exactly the join rows of that hero, each with its power's projection.
   */
  function HeroDetail(t: Tables, id: int): (r: Value)
    requires Consistent(t) && id in t.heroes
    ensures r.JObj? && r.fields.Keys == {"id", "name", "super_name", "hero_powers"}
    ensures forall k :: k in HeroToDict(t.heroes[id]).fields ==> r.fields[k] == HeroToDict(t.heroes[id]).fields[k]
    ensures r.fields["hero_powers"] == JArr(HeroPowerList(t, id))
  {
    JObj(HeroToDict(t.heroes[id]).fields["hero_powers" := JArr(HeroPowerList(t, id))])
  }

  /** GET /heroes/<id>: the detail, or 404 exactly when no such hero is stored. */
  function GetHeroById(t: Tables, id: int): (r: Response)
    requires Consistent(t)
    ensures r.status == 404 <==> id !in t.heroes
    ensures r.status == 404 ==> r.body == ErrorBody(HeroNotFound)
    ensures r.status != 404 ==> r.status == 200 && r.body == HeroDetail(t, id)
  {
    if id !in t.heroes then Response(404, ErrorBody(HeroNotFound))
    else Response(200, HeroDetail(t, id))
  }

  // ---------------------------------------------------------------------------
  // Write handlers as steps of the database
  // ---------------------------------------------------------------------------

  /** A write handler's effect: its response, the tables afterwards, the notification it sends. */
  datatype Outcome = Outcome(response: Response, tables: Tables, notice: Option<Message>)

  /** The request asks for a description that update_power will store. */
  predicate DescriptionStored(data: map<string, Value>) {
    "description" in data && data["description"].JStr?
    && |data["description"].s| >= MinDescriptionLength
  }

  /**
   * PATCH /powers/<id>. An unknown id is 404. Without a `description` field
   * nothing changes and the power is returned. A description the validator
   * refuses is 400 with its message; one that makes the validator or the
   * commit raise otherwise is 400 with the generic message; both roll back.
   * Otherwise exactly that power's description changes.
   */
  function UpdatePowerStep(t: Tables, id: int, data: map<string, Value>, to: string): (o: Outcome)
    requires Consistent(t)
    ensures Consistent(o.tables)
    ensures o.response.status == 404 <==> id !in t.powers
    ensures o.response.status == 404 ==> o.response.body == ErrorBody(PowerNotFound)
    ensures o.response.status == 200 <==>
              id in t.powers && ("description" !in data || DescriptionStored(data))
    ensures o.response.status in {200, 400, 404}
    ensures o.response.status != 200 ==> o.tables == t && o.notice == None
    ensures id in t.powers && "description" in data
            && ValidateDescription(data["description"]).Rejected? ==>
              o.response == Response(400, ErrorsBody(DescriptionError))
    ensures o.response.status == 400 && !ValidateDescription(data["description"]).Rejected? ==>
              o.response.body == ErrorsBody(UpdatePowerFailed)
    ensures id in t.powers && "description" !in data ==>
              o.tables == t && o.response.body == PowerToDict(t.powers[id])
    ensures o.response.status == 200 && "description" in data ==>
              && o.tables == t.(powers := t.powers[id := t.powers[id].(description := data["description"].s)])
              && o.response.body == PowerToDict(o.tables.powers[id])
    ensures o.response.status == 200 ==> o.notice == Some(PowerUpdatedNotice(o.tables.powers[id], to))
  {
    if id !in t.powers then Outcome(Response(404, ErrorBody(PowerNotFound)), t, None)
    else
      var power := t.powers[id];
      if "description" !in data then
        Outcome(Response(200, PowerToDict(power)), t, Some(PowerUpdatedNotice(power, to)))
      else
        var checked := ValidateDescription(data["description"]);
        if checked.Rejected? then Outcome(Response(400, ErrorsBody(checked.message)), t, None)
        else if checked.Raised? then Outcome(Response(400, ErrorsBody(UpdatePowerFailed)), t, None)
        else
          var text := ColumnText(checked.value);
          if text.None? then Outcome(Response(400, ErrorsBody(UpdatePowerFailed)), t, None)
          else
            var updated := power.(description := text.value);
            Outcome(Response(200, PowerToDict(updated)), SetDescription(t, id, updated.description),
                    Some(PowerUpdatedNotice(updated, to)))
  }

  /**
   * POST /hero_powers. Checks run in this order, each a 400 that changes
   * nothing: missing fields, then an unknown hero, then an unknown power,
   * then a strength the validator refuses. Otherwise exactly one join row is
   * added, with the next id, and returned with 201.
   */
  function CreateHeroPowerStep(t: Tables, data: map<string, Value>, to: string): (o: Outcome)
    requires Consistent(t)
    ensures Consistent(o.tables)
    ensures o.response.status in {201, 400}
    ensures o.response.status == 201 <==>
              && Missing(HeroPowerFields, data) == []
              && HeroFound(t, data) && PowerFound(t, data)
              && ValidateStrength(data["strength"]).Accepted?
    ensures o.response.status == 400 ==> o.tables == t && o.notice == None
    ensures Missing(HeroPowerFields, data) != [] ==>
              o.response == Response(400, ErrorsBody(MissingMessage(Missing(HeroPowerFields, data))))
    ensures Missing(HeroPowerFields, data) == [] && !HeroFound(t, data) ==>
              o.response == Response(400, ErrorsBody(HeroNotFound))
    ensures Missing(HeroPowerFields, data) == [] && HeroFound(t, data) && !PowerFound(t, data) ==>
              o.response == Response(400, ErrorsBody(PowerNotFound))
    ensures Missing(HeroPowerFields, data) == [] && HeroFound(t, data) && PowerFound(t, data)
            && !ValidateStrength(data["strength"]).Accepted? ==>
              o.response == Response(400, ErrorsBody(StrengthError))
    ensures o.response.status == 201 ==>
              var hp := HeroPower(t.nextHeroPowerId, data["strength"].s,
                                  IdOf(data["hero_id"]).value, IdOf(data["power_id"]).value);
              && t.nextHeroPowerId !in t.heroPowers
              && o.tables == t.(heroPowers := t.heroPowers[hp.id := hp], nextHeroPowerId := hp.id + 1)
              && |o.tables.heroPowers| == |t.heroPowers| + 1
              && o.response.body == HeroPowerToDict(hp, t.heroes[hp.heroId], t.powers[hp.powerId])
              && o.notice == Some(HeroPowerCreatedNotice(t.heroes[hp.heroId], t.powers[hp.powerId], hp.strength, to))
  {
    var missing := Missing(HeroPowerFields, data);
    if missing != [] then Outcome(Response(400, ErrorsBody(MissingMessage(missing))), t, None)
    else if !HeroFound(t, data) then Outcome(Response(400, ErrorsBody(HeroNotFound)), t, None)
    else if !PowerFound(t, data) then Outcome(Response(400, ErrorsBody(PowerNotFound)), t, None)
    else
      var checked := ValidateStrength(data["strength"]);
      if !checked.Accepted? then Outcome(Response(400, ErrorsBody(checked.message)), t, None)
      else
        var hero := t.heroes[IdOf(data["hero_id"]).value];
        var power := t.powers[IdOf(data["power_id"]).value];
        var hp := HeroPower(t.nextHeroPowerId, checked.value.s, hero.id, power.id);
        Outcome(Response(201, HeroPowerToDict(hp, hero, power)),
                InsertHeroPower(t, hp.strength, hero.id, power.id),
                Some(HeroPowerCreatedNotice(hero, power, hp.strength, to)))
  }

  /**
   * POST /heroes. Missing fields are 400 with the list. Otherwise the hero is
   * committed if both names can be stored as text; if not, the commit fails,
   * is rolled back, and the answer is 400 with the generic message. On
   * success exactly one hero is added, with the next id, and returned with 201.
   */
  function CreateHeroStep(t: Tables, data: map<string, Value>, to: string): (o: Outcome)
    requires Consistent(t)
    ensures Consistent(o.tables)
    ensures o.response.status in {201, 400}
    ensures o.response.status == 201 <==>
              && Missing(HeroFields, data) == []
              && ColumnText(data["name"]).Some? && ColumnText(data["super_name"]).Some?
    ensures o.response.status == 400 ==> o.tables == t && o.notice == None
    ensures Missing(HeroFields, data) != [] ==>
              o.response == Response(400, ErrorsBody(MissingMessage(Missing(HeroFields, data))))
    ensures Missing(HeroFields, data) == [] && o.response.status == 400 ==>
              o.response.body == ErrorsBody(CreateHeroFailed)
    ensures o.response.status == 201 ==>
              var hero := Hero(t.nextHeroId, ColumnText(data["name"]).value,
                               ColumnText(data["super_name"]).value);
              && t.nextHeroId !in t.heroes
              && o.tables == t.(heroes := t.heroes[hero.id := hero], nextHeroId := hero.id + 1)
              && |o.tables.heroes| == |t.heroes| + 1
              && o.response.body == HeroToDict(hero)
              && o.notice == Some(HeroRegisteredNotice(hero, to))
  {
    var missing := Missing(HeroFields, data);
    if missing != [] then Outcome(Response(400, ErrorsBody(MissingMessage(missing))), t, None)
    else
      var name := ColumnText(data["name"]);
      var superName := ColumnText(data["super_name"]);
      if name.None? || superName.None? then Outcome(Response(400, ErrorsBody(CreateHeroFailed)), t, None)
      else
        var hero := Hero(t.nextHeroId, name.value, superName.value);
        Outcome(Response(201, HeroToDict(hero)), InsertHero(t, hero.name, hero.superName),
                Some(HeroRegisteredNotice(hero, to)))
  }

  /**
   * POST /send-email: 400 with the list of missing fields, or the message is
   * handed to the mail helper and the answer is 200 exactly when the helper
   * reports delivery, 500 otherwise.
   */
  function SendEmailStep(data: map<string, Value>, delivered: bool): (o: (Response, Option<Message>))
    ensures o.0.status == 400 <==> Missing(EmailFields, data) != []
    ensures o.0.status == 200 <==> Missing(EmailFields, data) == [] && delivered
    ensures o.0.status == 500 <==> Missing(EmailFields, data) == [] && !delivered
    ensures o.0.status == 400 ==> o.0.body == ErrorsBody(MissingMessage(Missing(EmailFields, data))) && o.1 == None
    ensures o.0.status == 200 ==> o.0.body == JObj(map["message" := JStr(EmailSent)])
    ensures o.0.status == 500 ==> o.0.body == ErrorBody(EmailFailed)
    ensures o.0.status != 400 ==>
              o.1 == Some(Message(data["subject"], data["recipient"], data["body"],
                                  if "html_body" in data then data["html_body"] else JNull))
  {
    var missing := Missing(EmailFields, data);
    if missing != [] then (Response(400, ErrorsBody(MissingMessage(missing))), None)
    else
      var m := Message(data["subject"], data["recipient"], data["body"],
                       if "html_body" in data then data["html_body"] else JNull);
      if delivered then (Response(200, JObj(map["message" := JStr(EmailSent)])), Some(m))
      else (Response(500, ErrorBody(EmailFailed)), Some(m))
  }

  /** The send-email handler itself: it hands the message to the helper and reports the result. */
  method SendEmail(data: map<string, Value>, mail: Mailer, delivered: bool) returns (r: Response)
    modifies mail
    ensures r == SendEmailStep(data, delivered).0
    ensures mail.attempts == old(mail.attempts) + NoticeList(SendEmailStep(data, delivered).1)
  {
    var missing := Missing(EmailFields, data);
    if missing != [] {
      return Response(400, ErrorsBody(MissingMessage(missing)));
    }
    var html := if "html_body" in data then data["html_body"] else JNull;
    var success := mail.Send(Message(data["subject"], data["recipient"], data["body"], html), delivered);
    if success {
      r := Response(200, JObj(map["message" := JStr("Email sent successfully")]));
    } else {
      r := Response(500, ErrorBody("Failed to send email"));
    }
  }

  // ---------------------------------------------------------------------------
  // The database as updated in place by the handlers
  // ---------------------------------------------------------------------------

  class Store {
    var heroes: map<int, Hero>
    var powers: map<int, Power>
    var heroPowers: map<int, HeroPower>
    var nextHeroId: int
    var nextPowerId: int
    var nextHeroPowerId: int
    /** The address the write handlers notify. */
    const notifyTo: string

    function Snapshot(): Tables
      reads this
    {
      Tables(heroes, powers, heroPowers, nextHeroId, nextPowerId, nextHeroPowerId)
    }

    ghost predicate Valid()
      reads this
    {
      Consistent(Snapshot())
    }

    constructor (notifyTo: string)
      ensures Valid() && Snapshot() == EmptyTables() && this.notifyTo == notifyTo
    {
      heroes, powers, heroPowers := map[], map[], map[];
      nextHeroId, nextPowerId, nextHeroPowerId := 1, 1, 1;
      this.notifyTo := notifyTo;
    }

    /**
     * update_power. The notification's delivery (`delivered`) does not enter
     * the response or the new state.
     */
    method UpdatePower(id: nat, data: map<string, Value>, mail: Mailer, delivered: bool) returns (r: Response)
      requires Valid()
      modifies this, mail
      ensures Valid()
      ensures var o := UpdatePowerStep(old(Snapshot()), id, data, notifyTo);
              && r == o.response && Snapshot() == o.tables
              && mail.attempts == old(mail.attempts) + NoticeList(o.notice)
    {
      if id !in powers {
        return Response(404, ErrorBody(PowerNotFound));
      }
      var power := powers[id];
      if "description" in data {
        var checked := ValidateDescription(data["description"]);
        if checked.Rejected? {
          // the validator raised before the attribute changed; roll back
          return Response(400, ErrorsBody(checked.message));
        }
        if checked.Raised? {
          return Response(400, ErrorsBody(UpdatePowerFailed));
        }
        var text := ColumnText(checked.value);
        if text.None? {
          // the commit cannot store the value; roll back
          return Response(400, ErrorsBody(UpdatePowerFailed));
        }
        power := power.(description := text.value);
        powers := powers[id := power];
      }
      var sent := mail.Send(PowerUpdatedNotice(power, notifyTo), delivered);
      r := Response(200, PowerToDict(power));
    }

    /** create_hero_power; the notification's delivery does not enter the response. */
    method CreateHeroPower(data: map<string, Value>, mail: Mailer, delivered: bool) returns (r: Response)
      requires Valid()
      modifies this, mail
      ensures Valid()
      ensures var o := CreateHeroPowerStep(old(Snapshot()), data, notifyTo);
              && r == o.response && Snapshot() == o.tables
              && mail.attempts == old(mail.attempts) + NoticeList(o.notice)
    {
      ghost var before := Snapshot();
      var missing := Missing(HeroPowerFields, data);
      if missing != [] {
        return Response(400, ErrorsBody(MissingMessage(missing)));
      }
      var heroId, powerId := IdOf(data["hero_id"]), IdOf(data["power_id"]);
      if heroId.None? || heroId.value !in heroes {
        return Response(400, ErrorsBody(HeroNotFound));
      }
      if powerId.None? || powerId.value !in powers {
        return Response(400, ErrorsBody(PowerNotFound));
      }
      var hero, power := heroes[heroId.value], powers[powerId.value];
      var checked := ValidateStrength(data["strength"]);
      if !checked.Accepted? {
        // the constructor raised; nothing was added to the session
        return Response(400, ErrorsBody(checked.message));
      }
      var hp := HeroPower(nextHeroPowerId, checked.value.s, hero.id, power.id);
      heroPowers := heroPowers[hp.id := hp];
      nextHeroPowerId := nextHeroPowerId + 1;
      assert Snapshot() == InsertHeroPower(before, hp.strength, hero.id, power.id);
      var notice := HeroPowerCreatedNotice(hero, power, hp.strength, notifyTo);
      var sent := mail.Send(notice, delivered);
      r := Response(201, HeroPowerToDict(hp, hero, power));
    }

    /** create_hero; the notification's delivery does not enter the response. */
    method CreateHero(data: map<string, Value>, mail: Mailer, delivered: bool) returns (r: Response)
      requires Valid()
      modifies this, mail
      ensures Valid()
      ensures var o := CreateHeroStep(old(Snapshot()), data, notifyTo);
              && r == o.response && Snapshot() == o.tables
              && mail.attempts == old(mail.attempts) + NoticeList(o.notice)
    {
      ghost var before := Snapshot();
      var missing := Missing(HeroFields, data);
      if missing != [] {
        return Response(400, ErrorsBody(MissingMessage(missing)));
      }
      var name, superName := ColumnText(data["name"]), ColumnText(data["super_name"]);
      if name.None? || superName.None? {
        // the commit fails (NULL or unstorable value) and is rolled back
        return Response(400, ErrorsBody(CreateHeroFailed));
      }
      var hero := Hero(nextHeroId, name.value, superName.value);
      heroes := heroes[hero.id := hero];
      nextHeroId := nextHeroId + 1;
      assert Snapshot() == InsertHero(before, hero.name, hero.superName);
      var notice := HeroRegisteredNotice(hero, notifyTo);
      var sent := mail.Send(notice, delivered);
      r := Response(201, HeroToDict(hero));
    }
  }
  // ---------------------------------------------------------------------------
  // Properties across handlers
  // ---------------------------------------------------------------------------

  /** A hero that POST /heroes created is then served by GET /heroes/<id>, with no powers yet. */
  lemma CreatedHeroIsServed(t: Tables, data: map<string, Value>, to: string)
    requires Consistent(t)
    requires CreateHeroStep(t, data, to).response.status == 201
    ensures var o := CreateHeroStep(t, data, to);
            var r := GetHeroById(o.tables, t.nextHeroId);
            && r.status == 200
            && HeroFromDict(o.response.body) == Some(o.tables.heroes[t.nextHeroId])
            && r.body.fields["hero_powers"] == JArr([])
  {
  }

  /** After a successful PATCH, GET /powers/<id> answers with what the PATCH returned. */
  lemma UpdatedPowerIsServed(t: Tables, id: int, data: map<string, Value>, to: string)
    requires Consistent(t)
    requires UpdatePowerStep(t, id, data, to).response.status == 200
    ensures var o := UpdatePowerStep(t, id, data, to);
            GetPowerById(o.tables, id) == o.response
  {
  }

  /** After a successful POST /hero_powers, the hero's detail lists the new association. */
  lemma CreatedHeroPowerIsListed(t: Tables, data: map<string, Value>, to: string)
    requires Consistent(t)
    requires CreateHeroPowerStep(t, data, to).response.status == 201
    ensures var o := CreateHeroPowerStep(t, data, to);
            var hp := o.tables.heroPowers[t.nextHeroPowerId];
            && GetHeroById(o.tables, hp.heroId).status == 200
            && HeroPowerEntry(hp, o.tables.powers[hp.powerId]) in HeroPowerList(o.tables, hp.heroId)
  {
  }
}
