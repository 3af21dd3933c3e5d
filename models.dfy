/**
 * The three tables of the superhero database (heroes, powers and the
 * hero_powers join with its strength attribute), the attribute validators
 * that run when a Power's description or a HeroPower's strength is assigned,
 * the `to_dict` projections, and the cascading deletes the relationships
 * declare. The database itself is abstracted to `Tables`: one map per table
 * from row id to row, plus the id the next inserted row receives.
 */
module Models {
  import opened Wrappers
  import opened Json

  datatype Hero = Hero(id: int, name: string, superName: string)
  datatype Power = Power(id: int, name: string, description: string)
  /** A row of the join table; both foreign keys are plain (non-null) integers. */
  datatype HeroPower = HeroPower(id: int, strength: string, heroId: int, powerId: int)

  const MinDescriptionLength: nat := 20
  const DescriptionError: string := "Description must be at least 20 characters long"
  const StrengthError: string := "Strength must be one of: Strong, Weak, Average"
  const ValidStrengths: seq<Value> := [JStr("Strong"), JStr("Weak"), JStr("Average")]

  /**
   * What assigning a validated attribute does: the value is kept, the
   * validator raises ValueError with a message, or evaluating the validator
   * raises some other exception (a TypeError from `len`).
   */
  datatype Validation = Accepted(value: Value) | Rejected(message: string) | Raised

  // ---------------------------------------------------------------------------
  // Validators
  // ---------------------------------------------------------------------------

  /**
   * Power.validate_description. `not description` is tested first, so a falsy
   * value of any type is a ValueError; for a truthy value `len` is taken,
   * which raises for integers and booleans; a sized value shorter than 20 is
   * a ValueError; anything else is returned unchanged.
   */
  function ValidateDescription(v: Value): (r: Validation)
    ensures r.Accepted? <==> HasLen(v) && Len(v) >= MinDescriptionLength
    ensures r.Accepted? ==> r.value == v
    ensures r.Rejected? <==> Falsy(v) || (HasLen(v) && Len(v) < MinDescriptionLength)
    ensures r.Rejected? ==> r.message == DescriptionError
    ensures r.Raised? <==> !Falsy(v) && !HasLen(v)
  {
    if Falsy(v) then Rejected(DescriptionError)
    else if !HasLen(v) then Raised
    else if Len(v) < MinDescriptionLength then Rejected(DescriptionError)
    else Accepted(v)
  }

  /** On text, the description rule is exactly "at least 20 characters". */
  lemma DescriptionOfText(s: string)
    ensures ValidateDescription(JStr(s)) ==
            if |s| >= MinDescriptionLength then Accepted(JStr(s)) else Rejected(DescriptionError)
  {
  }

  /**
   * HeroPower.validate_strength: membership in the list of the three allowed
   * strings, compared with Python's `==` (so case-sensitive, and never equal
   * to a non-string); the value is returned unchanged.
   */
  function ValidateStrength(v: Value): (r: Validation)
    ensures r.Accepted? <==> v == JStr("Strong") || v == JStr("Weak") || v == JStr("Average")
    ensures r.Accepted? ==> r.value == v && v.JStr?
    ensures !r.Accepted? ==> r == Rejected(StrengthError)
  {
    if v !in ValidStrengths then Rejected(StrengthError) else Accepted(v)
  }

  /** Other spellings of an allowed strength, and other values, are refused. */
  lemma StrengthIsCaseSensitive()
    ensures ValidateStrength(JStr("strong")) == Rejected(StrengthError)
    ensures ValidateStrength(JStr("AVERAGE")) == Rejected(StrengthError)
    ensures ValidateStrength(JStr("Mighty")) == Rejected(StrengthError)
    ensures ValidateStrength(JNull) == Rejected(StrengthError)
  {
  }

  // ---------------------------------------------------------------------------
  // to_dict projections and their inverses
  // ---------------------------------------------------------------------------

  /** Hero.to_dict: exactly id, name and super_name. */
  function HeroToDict(h: Hero): (r: Value)
    ensures r.JObj? && r.fields.Keys == {"id", "name", "super_name"}
    ensures HeroFromDict(r) == Some(h)
  {
    JObj(map["id" := JInt(h.id), "name" := JStr(h.name), "super_name" := JStr(h.superName)])
  }

  /** Reads a hero projection back; None for anything that is not one. */
  function HeroFromDict(v: Value): Option<Hero>
  {
    if v.JObj? && v.fields.Keys == {"id", "name", "super_name"}
       && v.fields["id"].JInt? && v.fields["name"].JStr? && v.fields["super_name"].JStr?
    then Some(Hero(v.fields["id"].i, v.fields["name"].s, v.fields["super_name"].s))
    else None
  }

  /** Power.to_dict: exactly id, name and description. */
  function PowerToDict(p: Power): (r: Value)
    ensures r.JObj? && r.fields.Keys == {"id", "name", "description"}
    ensures PowerFromDict(r) == Some(p)
  {
    JObj(map["id" := JInt(p.id), "name" := JStr(p.name), "description" := JStr(p.description)])
  }

  /** Reads a power projection back; None for anything that is not one. */
  function PowerFromDict(v: Value): Option<Power>
  {
    if v.JObj? && v.fields.Keys == {"id", "name", "description"}
       && v.fields["id"].JInt? && v.fields["name"].JStr? && v.fields["description"].JStr?
    then Some(Power(v.fields["id"].i, v.fields["name"].s, v.fields["description"].s))
    else None
  }

  /**
   * HeroPower.to_dict: the row's own four columns plus the projections of the
   * hero and the power its foreign keys refer to.
   */
  function HeroPowerToDict(hp: HeroPower, hero: Hero, power: Power): (r: Value)
    requires hero.id == hp.heroId && power.id == hp.powerId
    ensures r.JObj? && r.fields.Keys == {"id", "strength", "hero_id", "power_id", "hero", "power"}
    ensures r.fields["hero"] == HeroToDict(hero) && r.fields["power"] == PowerToDict(power)
    ensures HeroPowerFromDict(r) == Some((hp, hero, power))
  {
    JObj(map["id" := JInt(hp.id), "strength" := JStr(hp.strength),
             "hero_id" := JInt(hp.heroId), "power_id" := JInt(hp.powerId),
             "hero" := HeroToDict(hero), "power" := PowerToDict(power)])
  }

  /** Reads a hero-power projection back into the row and the two rows it nests. */
  function HeroPowerFromDict(v: Value): Option<(HeroPower, Hero, Power)>
  {
    if v.JObj? && v.fields.Keys == {"id", "strength", "hero_id", "power_id", "hero", "power"}
       && v.fields["id"].JInt? && v.fields["strength"].JStr?
       && v.fields["hero_id"].JInt? && v.fields["power_id"].JInt?
       && HeroFromDict(v.fields["hero"]).Some? && PowerFromDict(v.fields["power"]).Some?
    then Some((HeroPower(v.fields["id"].i, v.fields["strength"].s, v.fields["hero_id"].i, v.fields["power_id"].i),
               HeroFromDict(v.fields["hero"]).value, PowerFromDict(v.fields["power"]).value))
    else None
  }

  // ---------------------------------------------------------------------------
  // Storing a value in a String column (SQLite TEXT affinity)
  // ---------------------------------------------------------------------------

  const MinInt64: int := -0x8000_0000_0000_0000
  const MaxInt64: int := 0x7FFF_FFFF_FFFF_FFFF

  function DigitChar(d: nat): (c: char)
    requires d < 10
    ensures '0' <= c <= '9'
  {
    "0123456789"[d]
  }

  /** Decimal digits of a natural number, most significant first. */
  function Digits(n: nat): (r: string)
    ensures |r| >= 1
    ensures forall i :: 0 <= i < |r| ==> '0' <= r[i] <= '9'
  {
    if n < 10 then [DigitChar(n)] else Digits(n / 10) + [DigitChar(n % 10)]
  }

  /** The text SQLite stores for an integer placed in a TEXT column. */
  function DecimalText(n: int): string
  {
    if n < 0 then "-" + Digits(-n) else Digits(n)
  }

  function ParseDigits(s: string): int
  {
    if s == [] then 0 else ParseDigits(s[..|s| - 1]) * 10 + (s[|s| - 1] as int - '0' as int)
  }

  function ParseDecimal(s: string): int
  {
    if |s| > 0 && s[0] == '-' then -ParseDigits(s[1..]) else ParseDigits(s)
  }

  lemma {:induction false} DigitsRoundTrip(n: nat)
    ensures ParseDigits(Digits(n)) == n
  {
    if n >= 10 {
      DigitsRoundTrip(n / 10);
      var s := Digits(n);
      assert s[..|s| - 1] == Digits(n / 10);
      assert s[|s| - 1] == DigitChar(n % 10);
    }
  }

  /** The integer-to-text conversion loses nothing. */
  lemma DecimalRoundTrip(n: int)
    ensures ParseDecimal(DecimalText(n)) == n
  {
    if n < 0 {
      var d := Digits(-n);
      assert DecimalText(n) == "-" + d;
      assert ("-" + d)[1..] == d;
      DigitsRoundTrip(-n);
    } else {
      var d := Digits(n);
      assert DecimalText(n) == d && d[0] != '-';
      DigitsRoundTrip(n);
    }
  }

  /**
   * What a String column holds after a commit of `v`: text is kept, integers
   * and booleans (which the driver binds as 1 and 0) are converted to their
   * decimal text, and None (a NOT NULL violation), lists and dicts (which the
   * driver cannot bind) and integers outside 64 bits make the commit fail.
   */
  function ColumnText(v: Value): (r: Option<string>)
    ensures r.Some? <==> v.JStr? || v.JBool? || (v.JInt? && MinInt64 <= v.i <= MaxInt64)
    ensures v.JStr? ==> r == Some(v.s)
    ensures v.JInt? && r.Some? ==> ParseDecimal(r.value) == v.i
    ensures v.JBool? ==> r == Some(if v.b then "1" else "0")
  {
    match v
    case JStr(s) => Some(s)
    case JBool(b) => Some(if b then "1" else "0")
    case JInt(i) =>
      if MinInt64 <= i <= MaxInt64 then DecimalRoundTrip(i); Some(DecimalText(i)) else None
    case _ => None
  }

  // ---------------------------------------------------------------------------
  // The tables and their integrity
  // ---------------------------------------------------------------------------

  datatype Tables = Tables(
    heroes: map<int, Hero>,
    powers: map<int, Power>,
    heroPowers: map<int, HeroPower>,
    nextHeroId: int,
    nextPowerId: int,
    nextHeroPowerId: int)

  /** A join row is well-formed in `t`: allowed strength, both references resolve. */
  ghost predicate HeroPowerOk(t: Tables, hp: HeroPower) {
    && JStr(hp.strength) in ValidStrengths
    && hp.heroId in t.heroes
    && hp.powerId in t.powers
  }

  /**
   * Everything the schema and the validators guarantee of stored rows: every
   * row is filed under its own id, ids lie below the next id to be assigned,
   * every description has at least 20 characters, and every join row has an
   * allowed strength and references an existing hero and an existing power.
   */
  ghost predicate Consistent(t: Tables) {
    && 1 <= t.nextHeroId && 1 <= t.nextPowerId && 1 <= t.nextHeroPowerId
    && (forall k :: k in t.heroes ==> t.heroes[k].id == k && 1 <= k < t.nextHeroId)
    && (forall k :: k in t.powers ==>
          t.powers[k].id == k && 1 <= k < t.nextPowerId
          && |t.powers[k].description| >= MinDescriptionLength)
    && (forall k :: k in t.heroPowers ==>
          t.heroPowers[k].id == k && 1 <= k < t.nextHeroPowerId
          && HeroPowerOk(t, t.heroPowers[k]))
  }

  /**
   * Stored rows are rows the validators accept: loading any stored power's
   * description or any stored join row's strength again passes validation.
   */
  lemma StoredRowsPassValidators(t: Tables)
    requires Consistent(t)
    ensures forall k :: k in t.powers ==> ValidateDescription(JStr(t.powers[k].description)).Accepted?
    ensures forall k :: k in t.heroPowers ==> ValidateStrength(JStr(t.heroPowers[k].strength)).Accepted?
  {
    forall k | k in t.powers
      ensures ValidateDescription(JStr(t.powers[k].description)).Accepted?
    {
      DescriptionOfText(t.powers[k].description);
    }
  }

  /** The empty database. */
  function EmptyTables(): (t: Tables)
    ensures Consistent(t)
    ensures t.heroes == map[] && t.powers == map[] && t.heroPowers == map[]
  {
    Tables(map[], map[], map[], 1, 1, 1)
  }

  /** Inserting a hero under the next id; the other tables are untouched. */
  function InsertHero(t: Tables, name: string, superName: string): (r: Tables)
    requires Consistent(t)
    ensures Consistent(r)
    ensures t.nextHeroId !in t.heroes && |r.heroes| == |t.heroes| + 1
    ensures r == t.(heroes := t.heroes[t.nextHeroId := Hero(t.nextHeroId, name, superName)],
                    nextHeroId := t.nextHeroId + 1)
  {
    t.(heroes := t.heroes[t.nextHeroId := Hero(t.nextHeroId, name, superName)],
       nextHeroId := t.nextHeroId + 1)
  }

  /** Inserting a join row under the next id; it needs an allowed strength and existing ends. */
  function InsertHeroPower(t: Tables, strength: string, heroId: int, powerId: int): (r: Tables)
    requires Consistent(t)
    requires JStr(strength) in ValidStrengths && heroId in t.heroes && powerId in t.powers
    ensures Consistent(r)
    ensures t.nextHeroPowerId !in t.heroPowers && |r.heroPowers| == |t.heroPowers| + 1
    ensures r == t.(heroPowers := t.heroPowers[t.nextHeroPowerId :=
                                               HeroPower(t.nextHeroPowerId, strength, heroId, powerId)],
                    nextHeroPowerId := t.nextHeroPowerId + 1)
  {
    var hp := HeroPower(t.nextHeroPowerId, strength, heroId, powerId);
    var r := t.(heroPowers := t.heroPowers[hp.id := hp], nextHeroPowerId := hp.id + 1);
    assert forall k :: k in r.heroPowers ==> HeroPowerOk(r, r.heroPowers[k]) by {
      forall k | k in r.heroPowers ensures HeroPowerOk(r, r.heroPowers[k]) {
        if k != hp.id { assert HeroPowerOk(t, t.heroPowers[k]); }
      }
    }
    r
  }

  /** Changing one power's description to one of at least 20 characters. */
  function SetDescription(t: Tables, id: int, description: string): (r: Tables)
    requires Consistent(t) && id in t.powers && |description| >= MinDescriptionLength
    ensures Consistent(r)
    ensures r == t.(powers := t.powers[id := t.powers[id].(description := description)])
  {
    var r := t.(powers := t.powers[id := t.powers[id].(description := description)]);
    assert forall k :: k in r.heroPowers ==> HeroPowerOk(r, r.heroPowers[k]) by {
      forall k | k in r.heroPowers ensures HeroPowerOk(r, r.heroPowers[k]) {
        assert HeroPowerOk(t, t.heroPowers[k]);
      }
    }
    r
  }

  /** Deleting a hero whose joins are removed with it, and a power likewise. */
  function DeleteHero(t: Tables, id: int): (r: Tables)
    ensures id !in r.heroes && forall k :: k in r.heroes <==> k in t.heroes && k != id
    ensures forall k :: k in r.heroes ==> r.heroes[k] == t.heroes[k]
    ensures r.powers == t.powers
    ensures forall k :: k in r.heroPowers <==> k in t.heroPowers && t.heroPowers[k].heroId != id
    ensures forall k :: k in r.heroPowers ==> r.heroPowers[k] == t.heroPowers[k]
    ensures Consistent(t) ==> Consistent(r)
  {
    t.(heroes := t.heroes - {id},
       heroPowers := map k | k in t.heroPowers && t.heroPowers[k].heroId != id :: t.heroPowers[k])
  }

  function DeletePower(t: Tables, id: int): (r: Tables)
    ensures id !in r.powers && forall k :: k in r.powers <==> k in t.powers && k != id
    ensures forall k :: k in r.powers ==> r.powers[k] == t.powers[k]
    ensures r.heroes == t.heroes
    ensures forall k :: k in r.heroPowers <==> k in t.heroPowers && t.heroPowers[k].powerId != id
    ensures forall k :: k in r.heroPowers ==> r.heroPowers[k] == t.heroPowers[k]
    ensures Consistent(t) ==> Consistent(r)
  {
    t.(powers := t.powers - {id},
       heroPowers := map k | k in t.heroPowers && t.heroPowers[k].powerId != id :: t.heroPowers[k])
  }

  // ---------------------------------------------------------------------------
  // Rows in id order (the order the tables are read back in)
  // ---------------------------------------------------------------------------

  /** The ids in `keys` from 1 up to (excluding) `n`, ascending. */
  function IdsInOrder(keys: set<int>, n: int): (r: seq<int>)
    decreases n
    ensures forall i :: 0 <= i < |r| ==> r[i] in keys && 1 <= r[i] < n
    ensures forall k :: k in keys && 1 <= k < n ==> k in r
    ensures forall i, j :: 0 <= i < j < |r| ==> r[i] < r[j]
  {
    if n <= 1 then [] else IdsInOrder(keys, n - 1) + (if n - 1 in keys then [n - 1] else [])
  }

  /** The rows filed under `ids`, in the order of `ids`. */
  function Lookup<R>(m: map<int, R>, ids: seq<int>): (r: seq<R>)
    requires forall i :: 0 <= i < |ids| ==> ids[i] in m
    ensures |r| == |ids| && forall i :: 0 <= i < |ids| ==> r[i] == m[ids[i]]
    ensures forall k :: k in ids ==> m[k] in r
  {
    if ids == [] then [] else [m[ids[0]]] + Lookup(m, ids[1..])
  }

  /** Every hero once, in ascending id order. */
  function HeroRows(t: Tables): (r: seq<Hero>)
    requires Consistent(t)
    ensures forall k :: k in t.heroes ==> t.heroes[k] in r
    ensures forall i :: 0 <= i < |r| ==> r[i].id in t.heroes && t.heroes[r[i].id] == r[i]
    ensures forall i, j :: 0 <= i < j < |r| ==> r[i].id < r[j].id
  {
    Lookup(t.heroes, IdsInOrder(t.heroes.Keys, t.nextHeroId))
  }

  /** Every power once, in ascending id order. */
  function PowerRows(t: Tables): (r: seq<Power>)
    requires Consistent(t)
    ensures forall k :: k in t.powers ==> t.powers[k] in r
    ensures forall i :: 0 <= i < |r| ==> r[i].id in t.powers && t.powers[r[i].id] == r[i]
    ensures forall i, j :: 0 <= i < j < |r| ==> r[i].id < r[j].id
  {
    Lookup(t.powers, IdsInOrder(t.powers.Keys, t.nextPowerId))
  }

  /** Every join row once, in ascending id order. */
  function HeroPowerRows(t: Tables): (r: seq<HeroPower>)
    requires Consistent(t)
    ensures forall k :: k in t.heroPowers ==> t.heroPowers[k] in r
    ensures forall i :: 0 <= i < |r| ==> r[i].id in t.heroPowers && t.heroPowers[r[i].id] == r[i]
    ensures forall hp :: hp in r ==> hp.id in t.heroPowers && t.heroPowers[hp.id] == hp
    ensures forall i, j :: 0 <= i < j < |r| ==> r[i].id < r[j].id
  {
    Lookup(t.heroPowers, IdsInOrder(t.heroPowers.Keys, t.nextHeroPowerId))
  }

  /** The rows of `rows` that belong to the hero `heroId`, order kept. */
  function OfHero(rows: seq<HeroPower>, heroId: int): (r: seq<HeroPower>)
    requires forall i, j :: 0 <= i < j < |rows| ==> rows[i].id < rows[j].id
    ensures forall hp :: hp in r <==> hp in rows && hp.heroId == heroId
    ensures forall i, j :: 0 <= i < j < |r| ==> r[i].id < r[j].id
  {
    if rows == [] then []
    else (if rows[0].heroId == heroId then [rows[0]] else []) + OfHero(rows[1..], heroId)
  }

  /** Hero.hero_powers: exactly the join rows whose hero_id is `heroId`, in id order. */
  function HeroPowersOf(t: Tables, heroId: int): (r: seq<HeroPower>)
    requires Consistent(t)
    ensures forall k :: k in t.heroPowers && t.heroPowers[k].heroId == heroId ==> t.heroPowers[k] in r
    ensures forall i :: 0 <= i < |r| ==>
              r[i].id in t.heroPowers && t.heroPowers[r[i].id] == r[i] && r[i].heroId == heroId
    ensures forall i, j :: 0 <= i < j < |r| ==> r[i].id < r[j].id
  {
    OfHeroStored(t, heroId);
    OfHero(HeroPowerRows(t), heroId)
  }

  /** The filter keeps exactly the stored rows of that hero. */
  lemma OfHeroStored(t: Tables, heroId: int)
    requires Consistent(t)
    ensures var r := OfHero(HeroPowerRows(t), heroId);
            && (forall k :: k in t.heroPowers && t.heroPowers[k].heroId == heroId ==> t.heroPowers[k] in r)
            && (forall i :: 0 <= i < |r| ==>
                  r[i].id in t.heroPowers && t.heroPowers[r[i].id] == r[i] && r[i].heroId == heroId)
  {
    var rows := HeroPowerRows(t);
    var r := OfHero(rows, heroId);
    forall k | k in t.heroPowers && t.heroPowers[k].heroId == heroId
      ensures t.heroPowers[k] in r
    {
      assert t.heroPowers[k] in rows;
    }
    forall i | 0 <= i < |r|
      ensures r[i].id in t.heroPowers && t.heroPowers[r[i].id] == r[i] && r[i].heroId == heroId
    {
      assert r[i] in r;
      assert r[i] in rows;
    }
  }
}
