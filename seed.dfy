/**
 * The fixture data the seeding script loads: four powers, ten heroes and six
 * associations, each list added in order and committed, so that every row
 * receives the next id of its table. It serves as a concrete database on
 * which every integrity rule holds.
 */
module Seed {
  import opened Json
  import opened Models

  /** Power name and description, in the order the script adds them. */
  const PowersData: seq<(string, string)> := [
    ("super strength", "gives the wielder super-human strengths"),
    ("flight", "gives the wielder the ability to fly through the skies at supersonic speed"),
    ("super human senses", "allows the wielder to use her senses at a super-human level"),
    ("elasticity", "can stretch the human body to extreme lengths")]

  /** Hero name and super name, in the order the script adds them. */
  const HeroesData: seq<(string, string)> := [
    ("Wanjiku Kamau", "Lightning Strike"),
    ("Kipchoge Rotich", "Speed Runner"),
    ("Akinyi Ochieng", "Lake Guardian"),
    ("Njoroge Mwangi", "Mountain Shield"),
    ("Amina Hassan", "Desert Wind"),
    ("Baraka Omondi", "Storm Caller"),
    ("Rehema Maina", "Healing Touch"),
    ("Jomo Kiptoo", "Earth Shaker"),
    ("Fatuma Abdullahi", "Fire Weaver"),
    ("Mwende Kiprotich", "Shadow Walker")]

  /**
   * Strength, hero id and power id of each association. The ids are those
   * the committed heroes and powers received (flight is 2, super strength 1,
   * super human senses 3, elasticity 4).
   */
  const HeroPowersData: seq<(string, int, int)> := [
    ("Strong", 1, 2),
    ("Average", 2, 1),
    ("Weak", 3, 3),
    ("Strong", 4, 4),
    ("Average", 5, 1),
    ("Strong", 6, 2)]

  /** The power list has four entries, each with a description the validator accepts. */
  lemma PowersFixture()
    ensures |PowersData| == 4
    ensures forall p :: p in PowersData ==> |p.1| >= MinDescriptionLength
  {
  }

  /** The hero list has ten entries. */
  lemma HeroesFixture()
    ensures |HeroesData| == 10
  {
  }

  /** The association list has six entries, each with an allowed strength and ids in range. */
  lemma HeroPowersFixture()
    ensures |HeroPowersData| == 6
    ensures forall i :: 0 <= i < |HeroPowersData| ==>
              JStr(HeroPowersData[i].0) in ValidStrengths
              && 1 <= HeroPowersData[i].1 <= 10 && 1 <= HeroPowersData[i].2 <= 4
  {
    forall i | 0 <= i < |HeroPowersData|
      ensures JStr(HeroPowersData[i].0) in ValidStrengths
              && 1 <= HeroPowersData[i].1 <= 10 && 1 <= HeroPowersData[i].2 <= 4
    {
      if i == 0 {} else if i == 1 {} else if i == 2 {} else if i == 3 {} else if i == 4 {} else {}
    }
  }

  /**
   * `rows` added in order to a table whose ids are all below `next`: the
   * i-th is built by `row` with id `next + i`.
   */
  function AddRows<A, R>(m: map<int, R>, next: int, rows: seq<A>, row: (int, A) -> R): map<int, R>
    decreases |rows|
  {
    if rows == [] then m else AddRows(m[next := row(next, rows[0])], next + 1, rows[1..], row)
  }

  /**
   * Adding rows keeps every earlier row under its id, puts the i-th added row
   * under `next + i`, and stores nothing else.
   */
  lemma {:induction false} AddRowsStores<A, R>(m: map<int, R>, next: int, rows: seq<A>, row: (int, A) -> R)
    requires forall k :: k in m ==> k < next
    ensures forall k :: k in AddRows(m, next, rows, row) ==> k in m || next <= k < next + |rows|
    ensures forall k :: k in m ==> k in AddRows(m, next, rows, row) && AddRows(m, next, rows, row)[k] == m[k]
    ensures forall k :: next <= k < next + |rows| ==>
              k in AddRows(m, next, rows, row) && AddRows(m, next, rows, row)[k] == row(k, rows[k - next])
    decreases |rows|
  {
    if rows != [] {
      var m' := m[next := row(next, rows[0])];
      AddRowsStores(m', next + 1, rows[1..], row);
      var r := AddRows(m, next, rows, row);
      assert r == AddRows(m', next + 1, rows[1..], row);
      forall k | k in r ensures k in m || next <= k < next + |rows| {
        assert k in m' || next + 1 <= k < next + 1 + |rows[1..]|;
      }
      forall k | k in m ensures k in r && r[k] == m[k] {
        assert k in m' && m'[k] == m[k];
      }
      forall k | next <= k < next + |rows|
        ensures k in r && r[k] == row(k, rows[k - next])
      {
        if k == next {
          assert next in m';
        } else {
          assert rows[k - next] == rows[1..][k - (next + 1)];
        }
      }
    }
  }

  function PowerRow(id: int, p: (string, string)): Power { Power(id, p.0, p.1) }
  function HeroRow(id: int, h: (string, string)): Hero { Hero(id, h.0, h.1) }
  function HeroPowerRow(id: int, hp: (string, int, int)): HeroPower { HeroPower(id, hp.0, hp.1, hp.2) }

  /**
   * One batch of powers added (`db.session.add_all`): the i-th listed power
   * is stored under the i-th next id, every power stored before keeps its
   * row, nothing else is stored and no other table changes. Each description
   * must pass the validator, which runs when the power is built.
   */
  function InsertPowers(t: Tables, ps: seq<(string, string)>): (r: Tables)
    requires forall k :: k in t.powers ==> k < t.nextPowerId
    requires forall p :: p in ps ==> |p.1| >= MinDescriptionLength
    ensures r.nextPowerId == t.nextPowerId + |ps|
    ensures forall k :: k in t.powers ==> k in r.powers && r.powers[k] == t.powers[k]
    ensures forall k :: t.nextPowerId <= k < r.nextPowerId ==>
              k in r.powers && r.powers[k] == Power(k, ps[k - t.nextPowerId].0, ps[k - t.nextPowerId].1)
    ensures forall k :: k in r.powers ==> k in t.powers || t.nextPowerId <= k < r.nextPowerId
    ensures r.heroes == t.heroes && r.heroPowers == t.heroPowers
    ensures r.nextHeroId == t.nextHeroId && r.nextHeroPowerId == t.nextHeroPowerId
  {
    AddRowsStores(t.powers, t.nextPowerId, ps, PowerRow);
    t.(powers := AddRows(t.powers, t.nextPowerId, ps, PowerRow), nextPowerId := t.nextPowerId + |ps|)
  }

  /**
   * One batch of heroes added: the i-th listed hero is stored under the i-th
   * next id, every hero stored before keeps its row, nothing else is stored
   * and no other table changes.
   */
  function InsertHeroes(t: Tables, hs: seq<(string, string)>): (r: Tables)
    requires forall k :: k in t.heroes ==> k < t.nextHeroId
    ensures r.nextHeroId == t.nextHeroId + |hs|
    ensures forall k :: k in t.heroes ==> k in r.heroes && r.heroes[k] == t.heroes[k]
    ensures forall k :: t.nextHeroId <= k < r.nextHeroId ==>
              k in r.heroes && r.heroes[k] == Hero(k, hs[k - t.nextHeroId].0, hs[k - t.nextHeroId].1)
    ensures forall k :: k in r.heroes ==> k in t.heroes || t.nextHeroId <= k < r.nextHeroId
    ensures r.powers == t.powers && r.heroPowers == t.heroPowers
    ensures r.nextPowerId == t.nextPowerId && r.nextHeroPowerId == t.nextHeroPowerId
  {
    AddRowsStores(t.heroes, t.nextHeroId, hs, HeroRow);
    t.(heroes := AddRows(t.heroes, t.nextHeroId, hs, HeroRow), nextHeroId := t.nextHeroId + |hs|)
  }

  /**
   * One batch of associations added: the i-th listed association is stored
   * under the i-th next id, every association stored before keeps its row,
   * nothing else is stored and no other table changes. Each strength must
   * pass the validator, which runs when the association is built.
   */
  function InsertHeroPowers(t: Tables, hps: seq<(string, int, int)>): (r: Tables)
    requires forall k :: k in t.heroPowers ==> k < t.nextHeroPowerId
    requires forall i :: 0 <= i < |hps| ==> JStr(hps[i].0) in ValidStrengths
    ensures r.nextHeroPowerId == t.nextHeroPowerId + |hps|
    ensures forall k :: k in t.heroPowers ==> k in r.heroPowers && r.heroPowers[k] == t.heroPowers[k]
    ensures forall k :: t.nextHeroPowerId <= k < r.nextHeroPowerId ==>
              var hp := hps[k - t.nextHeroPowerId];
              k in r.heroPowers && r.heroPowers[k] == HeroPower(k, hp.0, hp.1, hp.2)
    ensures forall k :: k in r.heroPowers ==> k in t.heroPowers || t.nextHeroPowerId <= k < r.nextHeroPowerId
    ensures r.heroes == t.heroes && r.powers == t.powers
    ensures r.nextHeroId == t.nextHeroId && r.nextPowerId == t.nextPowerId
  {
    AddRowsStores(t.heroPowers, t.nextHeroPowerId, hps, HeroPowerRow);
    t.(heroPowers := AddRows(t.heroPowers, t.nextHeroPowerId, hps, HeroPowerRow),
       nextHeroPowerId := t.nextHeroPowerId + |hps|)
  }

  /**
   * The script first deletes every row of the three tables. The id columns
   * are plain integer primary keys, so an emptied table numbers its next row 1.
   */
  function ClearAll(before: Tables): (t: Tables)
    ensures Consistent(t)
    ensures t.heroes == map[] && t.powers == map[] && t.heroPowers == map[]
    ensures t.nextHeroId == 1 && t.nextPowerId == 1 && t.nextHeroPowerId == 1
  {
    before.(heroes := map[], powers := map[], heroPowers := map[],
            nextHeroId := 1, nextPowerId := 1, nextHeroPowerId := 1)
  }

  /** The database after the first commit: exactly the four powers, under ids 1 to 4. */
  function PowersCommitted(before: Tables): (t: Tables)
    ensures Consistent(t)
    ensures forall k :: 1 <= k <= 4 ==>
              k in t.powers && t.powers[k] == Power(k, PowersData[k - 1].0, PowersData[k - 1].1)
    ensures t.heroes == map[] && t.heroPowers == map[]
    ensures t.nextPowerId == 5 && t.nextHeroId == 1 && t.nextHeroPowerId == 1
  {
    PowersFixture();
    var cleared := ClearAll(before);
    var t := InsertPowers(cleared, PowersData);
    forall k | k in t.powers
      ensures t.powers[k].id == k && 1 <= k < t.nextPowerId
              && |t.powers[k].description| >= MinDescriptionLength
    {
      assert PowersData[k - 1] in PowersData;
    }
    t
  }

  /**
   * The database after the second commit: the powers as committed, and
   * exactly the ten heroes, under ids 1 to 10.
   */
  function HeroesCommitted(before: Tables): (t: Tables)
    ensures Consistent(t)
    ensures t.powers == PowersCommitted(before).powers
    ensures forall k :: 1 <= k <= 10 ==>
              k in t.heroes && t.heroes[k] == Hero(k, HeroesData[k - 1].0, HeroesData[k - 1].1)
    ensures t.heroPowers == map[]
    ensures t.nextPowerId == 5 && t.nextHeroId == 11 && t.nextHeroPowerId == 1
  {
    HeroesFixture();
    var withPowers := PowersCommitted(before);
    InsertHeroes(withPowers, HeroesData)
  }

  /**
   * The seeded database, whatever the database held before: the heroes and
   * powers as committed, exactly the six associations under ids 1 to 6, and
   * every integrity rule holds.
   */
  function SeedTables(before: Tables): (t: Tables)
    ensures Consistent(t)
    ensures t.heroes == HeroesCommitted(before).heroes && t.powers == HeroesCommitted(before).powers
    ensures forall k :: 1 <= k <= 6 ==>
              var hp := HeroPowersData[k - 1];
              k in t.heroPowers && t.heroPowers[k] == HeroPower(k, hp.0, hp.1, hp.2)
    ensures t.nextPowerId == 5 && t.nextHeroId == 11 && t.nextHeroPowerId == 7
  {
    HeroPowersFixture();
    var withHeroes := HeroesCommitted(before);
    var t := InsertHeroPowers(withHeroes, HeroPowersData);
    forall k | k in t.heroPowers
      ensures t.heroPowers[k].id == k && 1 <= k < t.nextHeroPowerId && HeroPowerOk(t, t.heroPowers[k])
    {
      var hp := HeroPowersData[k - 1];
      assert hp.1 in t.heroes && hp.2 in t.powers;
    }
    t
  }
}
