/** MerchantRepository.java: the Spring Data repository over the `merchants`
    table, modelled as rows keyed by id together with the table's
    constraints (name and email NOT NULL, email UNIQUE, created_at not
    updatable) and its identity sequence. */
module Repository {
  import opened Wrappers
  import opened JavaLang
  import opened Entity
  import opened Builder
  import PostgresAdapter

  type Rows = map<Long, MerchantData>

  /** No two rows share an email. */
  ghost predicate EmailsUnique(rows: Rows)
  {
    forall j, k :: j in rows && k in rows && rows[j].email == rows[k].email ==> j == k
  }

  /** Some row other than `self` already holds `email`. */
  predicate EmailTaken(rows: Rows, email: Option<string>, self: Option<Long>)
  {
    exists k :: k in rows && rows[k].email == email && Some(k) != self
  }

  /** The rows by email; well defined because emails are unique. */
  function EmailIndex(rows: Rows): (index: map<string, MerchantData>)
    requires EmailsUnique(rows)
    ensures forall e :: e in index <==> exists k :: k in rows && rows[k].email == Some(e)
    ensures forall e :: e in index ==> index[e] in rows.Values && index[e].email == Some(e)
  {
    map k | k in rows && rows[k].email.Some? :: rows[k].email.value := rows[k]
  }

  class MerchantRepository {
    var rows: Rows
    /** The next value of the identity sequence. */
    var nextId: int

    ghost predicate Valid()
      reads this
    {
      && 1 <= nextId
      && (forall k :: k in rows ==>
            && rows[k].id == Some(k) && k < nextId
            && rows[k].name.Some? && rows[k].email.Some? && rows[k].createdAt.Some?)
      && EmailsUnique(rows)
    }

    /** An empty table. */
    constructor ()
      ensures Valid() && rows == map[] && nextId == 1
    {
      rows := map[];
      nextId := 1;
    }

    /** `findById(id)` as a value. */
    function Lookup(id: Long): (r: Option<MerchantData>)
      reads this
      ensures r.Some? <==> id in rows
      ensures r.Some? ==> r.value == rows[id]
    {
      if id in rows then Some(rows[id]) else None
    }

    /** `findByEmail(email)`: the row holding that email, if any. */
    function FindByEmail(email: string): (r: Option<MerchantData>)
      reads this
      requires Valid()
      ensures r.Some? <==> exists k :: k in rows && rows[k].email == Some(email)
      ensures r.Some? ==> r.value in rows.Values && r.value.email == Some(email)
    {
      var index := EmailIndex(rows);
      if email in index then Some(index[email]) else None
    }

    /** `existsByEmail(email)`: a null email matches no row. */
    function ExistsByEmail(email: Option<string>): (b: bool)
      reads this
      requires Valid()
      ensures b <==> email.Some? && exists k :: k in rows && rows[k].email == email
    {
      EmailTaken(rows, email, None)
    }

    /** `findAll()`: every row, and nothing else. */
    function FindAll(): (all: set<MerchantData>)
      reads this
      ensures forall m :: m in all <==> exists k :: k in rows && rows[k] == m
    {
      rows.Values
    }

    /** The finders as the Postgres adapter sees them: they never fail. */
    function View(): (v: PostgresAdapter.RepositoryView)
      reads this
      requires Valid()
      ensures forall id: Long :: v.findById(id) == Ok(Lookup(id))
      ensures forall e :: v.findByEmail(e) == Ok(FindByEmail(e))
    {
      var table := rows;
      var index := EmailIndex(rows);
      PostgresAdapter.RepositoryView(
        id => Ok(if id in table then Some(table[id]) else None),
        e => Ok(if e in index then Some(index[e]) else None))
    }

    /** `findById(id)`: a fresh entity loaded from the row. */
    method FindById(id: Long) returns (r: Option<Merchant>)
      ensures r.None? <==> id !in rows
      ensures r.Some? ==> fresh(r.value) && r.value.Snapshot() == rows[id]
    {
      if id !in rows {
        return None;
      }
      var row := rows[id];
      var b := MerchantBuilder.AMerchant();
      b := b.WithId(row.id);
      b := b.WithName(row.name);
      b := b.WithEmail(row.email);
      b := b.WithBusinessType(row.businessType);
      b := b.WithPhonetics(row.phonetics);
      b := b.WithCreatedAt(row.createdAt);
      b := b.WithUpdatedAt(row.updatedAt);
      var m := b.Build();
      return Some(m);
    }

    /** `save(merchant)`. An entity without id is inserted: `onCreate` runs,
        the sequence assigns the id. An entity with an id updates its row:
        `onUpdate` runs only when a field differs from the row, and the row
        keeps its `createdAt`. A null name or email, an email held by another
        row, an id with no row, or an exhausted sequence is rejected and
        nothing changes. The saved entity is returned. */
    method Save(m: Merchant, now: Timestamp) returns (r: Result<Merchant>)
      requires Valid()
      modifies this, m
      ensures Valid()
      ensures r.Ok? ==> r.value == m
      ensures r.Err? ==> rows == old(rows) && nextId == old(nextId) && m.Snapshot() == old(m.Snapshot())
      ensures var s := old(m.Snapshot());
        if s.name.None? || s.email.None? then r == Err(ConstraintViolation)
        else if s.id.None? then
          if old(nextId) > LONG_MAX then r == Err(SequenceExhausted)
          else if EmailTaken(old(rows), s.email, None) then r == Err(ConstraintViolation)
          else && r.Ok?
               && m.Snapshot() == s.(id := Some(old(nextId)), createdAt := Some(now), updatedAt := Some(now))
               && rows == old(rows)[old(nextId) := m.Snapshot()]
               && nextId == old(nextId) + 1
        else if s.id.value !in old(rows) then r == Err(StaleEntity)
        else if EmailTaken(old(rows), s.email, s.id) then r == Err(ConstraintViolation)
        else && r.Ok?
             && m.Snapshot() == (if s == old(rows)[s.id.value] then s else s.(updatedAt := Some(now)))
             && rows == old(rows)[s.id.value := m.Snapshot().(createdAt := old(rows)[s.id.value].createdAt)]
             && nextId == old(nextId)
    {
      var s := m.Snapshot();
      if s.name.None? || s.email.None? {
        return Err(ConstraintViolation);
      }
      if s.id.None? {
        if nextId > LONG_MAX {
          return Err(SequenceExhausted);
        }
        if EmailTaken(rows, s.email, None) {
          return Err(ConstraintViolation);
        }
        m.OnCreate(now);
        m.SetId(Some(nextId));
        rows := rows[nextId := m.Snapshot()];
        nextId := nextId + 1;
        return Ok(m);
      }
      var id := s.id.value;
      if id !in rows {
        return Err(StaleEntity);
      }
      if EmailTaken(rows, s.email, Some(id)) {
        return Err(ConstraintViolation);
      }
      if s != rows[id] {
        m.OnUpdate(now);
      }
      rows := rows[id := m.Snapshot().(createdAt := rows[id].createdAt)];
      return Ok(m);
    }

    /** `deleteById(id)`: removes the row; an absent id is a no-op. */
    method DeleteById(id: Long)
      requires Valid()
      modifies this
      ensures Valid()
      ensures rows == old(rows) - {id} && nextId == old(nextId)
    {
      rows := rows - {id};
    }
  }
}
