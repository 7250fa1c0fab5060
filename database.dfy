/**
 * The `calendly_tokens` table and its two operations, `save_token` and
 * `get_token`.
 *
 * A row is `{id, telegram_user_id, access_token}`. `id` is the
 * auto-incremented primary key and `telegram_user_id` is unique. Both
 * operations look a row up with `session.get`, which searches by PRIMARY
 * KEY, so the Telegram id the caller passes is compared against `id`. The
 * functions below state that behaviour as written; `SaveForUser` and
 * `RowByUser` state the evidently intended one, keyed on the Telegram id.
 */
module TokenStore {
  import opened Wrappers

  datatype Row = Row(id: int, telegramUserId: int, accessToken: string)

  /** The rows of the table and the next value of the primary-key sequence. */
  datatype Table = Table(rows: seq<Row>, nextId: int)

  /** The two key columns. */
  datatype Column = Id | TelegramUserId

  function Key(r: Row, c: Column): int
  {
    match c
    case Id => r.id
    case TelegramUserId => r.telegramUserId
  }

  /** What a committed table satisfies: ids come from the sequence and both key columns are unique. */
  predicate Consistent(t: Table)
  {
    && t.nextId >= 1
    && (forall i :: 0 <= i < |t.rows| ==> 1 <= t.rows[i].id < t.nextId)
    && (forall i, j :: 0 <= i < j < |t.rows| ==> t.rows[i].id != t.rows[j].id)
    && (forall i, j :: 0 <= i < j < |t.rows| ==> t.rows[i].telegramUserId != t.rows[j].telegramUserId)
  }

  /** The first row whose column `c` equals `k`. */
  function Position(rows: seq<Row>, c: Column, k: int): (r: Option<nat>)
    ensures r.Some? ==> r.value < |rows| && Key(rows[r.value], c) == k
    ensures r.Some? ==> forall i :: 0 <= i < r.value ==> Key(rows[i], c) != k
    ensures r.None? <==> forall i :: 0 <= i < |rows| ==> Key(rows[i], c) != k
  {
    if rows == [] then None
    else if Key(rows[0], c) == k then Some(0)
    else match Position(rows[1..], c, k)
      case None => None
      case Some(p) => Some(p + 1)
  }

  /** A row that matches and has no match before it is the one `Position` finds. */
  lemma PositionAt(rows: seq<Row>, c: Column, i: nat, k: int)
    requires i < |rows| && Key(rows[i], c) == k
    requires forall j :: 0 <= j < i ==> Key(rows[j], c) != k
    ensures Position(rows, c, k) == Some(i)
  {
  }

  /** `session.get(CalendlyToken, k)`: the row whose primary key is `k`. */
  function RowById(rows: seq<Row>, k: int): (r: Option<Row>)
    ensures r.Some? ==> r.value in rows && r.value.id == k
    ensures r.None? <==> forall i :: 0 <= i < |rows| ==> rows[i].id != k
  {
    match Position(rows, Id, k)
    case None => None
    case Some(i) => Some(rows[i])
  }

  /** The result of a `save_token` call: the row was updated, inserted, or the commit was refused. */
  datatype SaveOutcome = Updated | Inserted | UniqueViolation

  /**
   * `save_token(k, token)` as written: a row with `id == k` gets the new
   * token; otherwise a new row is added with the next id and
   * `telegram_user_id = k`, and the commit raises (leaving the table as it
   * was) when that would repeat a `telegram_user_id`.
   */
  function Save(t: Table, k: int, token: string): (r: (Table, SaveOutcome))
    ensures r.1 == Updated <==> exists i :: 0 <= i < |t.rows| && t.rows[i].id == k
    ensures r.1 == UniqueViolation ==> r.0 == t
    ensures |r.0.rows| == |t.rows| + (if r.1 == Inserted then 1 else 0)
    ensures forall i :: 0 <= i < |t.rows| ==> r.0.rows[i].id == t.rows[i].id
  {
    match Position(t.rows, Id, k)
    case Some(i) => (t.(rows := t.rows[i := t.rows[i].(accessToken := token)]), Updated)
    case None =>
      if Position(t.rows, TelegramUserId, k).Some? then (t, UniqueViolation)
      else (Table(t.rows + [Row(t.nextId, k, token)], t.nextId + 1), Inserted)
  }

  /** A hit on `id == k` replaces that row's token and nothing else. */
  lemma SaveUpdatesInPlace(t: Table, k: int, token: string, i: nat)
    requires i < |t.rows| && t.rows[i].id == k
    requires Consistent(t)
    ensures var (t', outcome) := Save(t, k, token);
      && outcome == Updated
      && |t'.rows| == |t.rows| && t'.nextId == t.nextId
      && t'.rows[i] == Row(k, t.rows[i].telegramUserId, token)
      && (forall j :: 0 <= j < |t.rows| && j != i ==> t'.rows[j] == t.rows[j])
  {
    PositionAt(t.rows, Id, i, k);
  }

  /** A miss on `id == k` with `k` a new Telegram id appends exactly one row. */
  lemma SaveInsertsOneRow(t: Table, k: int, token: string)
    requires forall i :: 0 <= i < |t.rows| ==> t.rows[i].id != k
    requires forall i :: 0 <= i < |t.rows| ==> t.rows[i].telegramUserId != k
    ensures Save(t, k, token) == (Table(t.rows + [Row(t.nextId, k, token)], t.nextId + 1), Inserted)
  {
    assert Position(t.rows, TelegramUserId, k).None?;
  }

  /** A miss on `id == k` while some row already has `telegram_user_id == k` fails the commit. */
  lemma SaveRefusesDuplicate(t: Table, k: int, token: string, j: nat)
    requires forall i :: 0 <= i < |t.rows| ==> t.rows[i].id != k
    requires j < |t.rows| && t.rows[j].telegramUserId == k
    ensures Save(t, k, token) == (t, UniqueViolation)
  {
    assert Key(t.rows[j], TelegramUserId) == k;
  }

  /** After a save that hit `id == k`, `get_token(k)` returns the new token. */
  lemma GetAfterUpdate(t: Table, k: int, token: string)
    requires Consistent(t)
    requires Save(t, k, token).1 == Updated
    ensures var found := RowById(Save(t, k, token).0.rows, k);
      found.Some? && found.value.accessToken == token && found.value.id == k
  {
    var i := Position(t.rows, Id, k).value;
    SaveUpdatesInPlace(t, k, token, i);
    var rows' := Save(t, k, token).0.rows;
    assert rows'[i].id == k;
  }

  /** Every save keeps the table consistent: in particular `telegram_user_id` stays unique. */
  lemma SavePreservesConsistency(t: Table, k: int, token: string)
    requires Consistent(t)
    ensures Consistent(Save(t, k, token).0)
  {
    var (t', outcome) := Save(t, k, token);
    if outcome == Inserted {
      assert Position(t.rows, TelegramUserId, k).None?;
      assert t'.rows[|t.rows|] == Row(t.nextId, k, token);
      forall i | 0 <= i < |t.rows| ensures t'.rows[i] == t.rows[i] && t'.rows[i].telegramUserId != k {
        assert Key(t.rows[i], TelegramUserId) != k;
      }
    }
  }

  /**
   * Saving the same token for the same key twice leaves the table as the
   * first save did. The second call is not harmless, though: unless the
   * first one updated, or inserted a row whose new `id` happens to be `k`,
   * the repeat misses on `id` again and its commit raises.
   */
  lemma SaveIdempotent(t: Table, k: int, token: string)
    requires Consistent(t)
    ensures var (once, first) := Save(t, k, token);
      var (twice, second) := Save(once, k, token);
      && twice == once
      && second == (if first == Updated || (first == Inserted && t.nextId == k) then Updated else UniqueViolation)
  {
    var (once, outcome) := Save(t, k, token);
    SavePreservesConsistency(t, k, token);
    match outcome
    case Updated =>
      var i := Position(t.rows, Id, k).value;
      SaveUpdatesInPlace(t, k, token, i);
      SaveUpdatesInPlace(once, k, token, i);
      assert Save(once, k, token).0.rows == once.rows;
    case UniqueViolation =>
    case Inserted =>
      var n := |t.rows|;
      assert once.rows[n] == Row(t.nextId, k, token);
      if t.nextId == k {
        SaveUpdatesInPlace(once, k, token, n);
        assert Save(once, k, token).0.rows == once.rows;
      } else {
        forall i | 0 <= i < |once.rows| ensures once.rows[i].id != k {
          if i < n { assert once.rows[i] == t.rows[i]; assert Key(t.rows[i], Id) != k; }
        }
        SaveRefusesDuplicate(once, k, token, n);
      }
  }

  /**
   * As written, a token saved for a Telegram id that is not yet in the
   * table cannot be read back with that id: the new row's `id` comes from
   * the sequence, and `get_token` compares the Telegram id with `id`.
   */
  lemma SaveThenGetMisses(t: Table, k: int, token: string)
    requires Consistent(t)
    requires forall i :: 0 <= i < |t.rows| ==> t.rows[i].id != k
    requires k != t.nextId
    ensures RowById(Save(t, k, token).0.rows, k).None?
  {
    var (t', outcome) := Save(t, k, token);
    if outcome == Inserted {
      forall i | 0 <= i < |t'.rows| ensures t'.rows[i].id != k {
        if i < |t.rows| { assert t'.rows[i] == t.rows[i]; }
      }
    }
  }

  /** The concrete case: user 42 connects on an empty table, then asks for slots and is told to connect again. */
  lemma SaveThenGetMissesExample()
    ensures var (t1, o1) := Save(Table([], 1), 42, "tok");
      o1 == Inserted && t1.rows == [Row(1, 42, "tok")] && RowById(t1.rows, 42) == None
    ensures var t1 := Save(Table([], 1), 42, "tok").0;
      Save(t1, 42, "tok2") == (t1, UniqueViolation)
  {
    var t1 := Save(Table([], 1), 42, "tok").0;
    assert t1.rows == [Row(1, 42, "tok")];
    SaveRefusesDuplicate(t1, 42, "tok2", 0);
  }

  /**
   * As written, a user whose Telegram id equals another user's row `id`
   * reads that user's row and overwrites that user's token.
   */
  lemma SaveHitsOtherUser(t: Table, k: int, token: string, i: nat)
    requires Consistent(t)
    requires i < |t.rows| && t.rows[i].id == k && t.rows[i].telegramUserId != k
    ensures RowById(t.rows, k) == Some(t.rows[i])
    ensures var t' := Save(t, k, token).0;
      t'.rows[i] == t.rows[i].(accessToken := token) && RowByUser(t'.rows, k) == RowByUser(t.rows, k)
  {
    SaveUpdatesInPlace(t, k, token, i);
    PositionAt(t.rows, Id, i, k);
    ByUserFrame(t.rows, Save(t, k, token).0.rows, i, k);
  }

  /** The concrete case: user 1 saves while row 1 belongs to user 42, and user 42's token is replaced. */
  lemma SaveHitsOtherUserExample()
    ensures RowById([Row(1, 42, "a")], 1) == Some(Row(1, 42, "a"))
    ensures Save(Table([Row(1, 42, "a")], 2), 1, "b") == (Table([Row(1, 42, "b")], 2), Updated)
  {
    var t := Table([Row(1, 42, "a")], 2);
    SaveUpdatesInPlace(t, 1, "b", 0);
    PositionAt(t.rows, Id, 0, 1);
    assert Save(t, 1, "b").0.rows == [Row(1, 42, "b")];
  }

  /** The intended lookup: the row whose `telegram_user_id` is `k`. */
  function RowByUser(rows: seq<Row>, k: int): (r: Option<Row>)
    ensures r.Some? ==> r.value in rows && r.value.telegramUserId == k
    ensures r.None? <==> forall i :: 0 <= i < |rows| ==> rows[i].telegramUserId != k
  {
    match Position(rows, TelegramUserId, k)
    case None => None
    case Some(i) => Some(rows[i])
  }

  /** The intended upsert: replace the token of the row for Telegram id `k`, or insert one. */
  function SaveForUser(t: Table, k: int, token: string): (r: (Table, SaveOutcome))
    ensures r.1 != UniqueViolation
    ensures r.1 == Updated <==> exists i :: 0 <= i < |t.rows| && t.rows[i].telegramUserId == k
    ensures |r.0.rows| == |t.rows| + (if r.1 == Inserted then 1 else 0)
  {
    match Position(t.rows, TelegramUserId, k)
    case Some(i) => (t.(rows := t.rows[i := t.rows[i].(accessToken := token)]), Updated)
    case None => (Table(t.rows + [Row(t.nextId, k, token)], t.nextId + 1), Inserted)
  }

  /**
   * The intended upsert never fails on a consistent table, keeps it
   * consistent, makes the lookup by Telegram id return the last saved
   * token, and leaves every other user's row alone.
   */
  lemma SaveForUserThenGet(t: Table, k: int, token: string)
    requires Consistent(t)
    ensures var (t', outcome) := SaveForUser(t, k, token);
      && Consistent(t')
      && RowByUser(t'.rows, k).Some?
      && RowByUser(t'.rows, k).value.accessToken == token
      && (forall u :: u != k ==> RowByUser(t'.rows, u) == RowByUser(t.rows, u))
  {
    match Position(t.rows, TelegramUserId, k)
    case Some(i) => SaveForUserUpdates(t, k, token, i);
    case None => SaveForUserInserts(t, k, token);
  }

  /** The update case of `SaveForUserThenGet`. */
  lemma SaveForUserUpdates(t: Table, k: int, token: string, i: nat)
    requires Consistent(t)
    requires Position(t.rows, TelegramUserId, k) == Some(i)
    ensures var t' := t.(rows := t.rows[i := t.rows[i].(accessToken := token)]);
      && Consistent(t')
      && RowByUser(t'.rows, k) == Some(t'.rows[i])
      && (forall u :: u != k ==> RowByUser(t'.rows, u) == RowByUser(t.rows, u))
  {
    var t' := t.(rows := t.rows[i := t.rows[i].(accessToken := token)]);
    assert t'.rows[i].telegramUserId == k;
    forall u | u != k ensures RowByUser(t'.rows, u) == RowByUser(t.rows, u) {
      ByUserFrame(t.rows, t'.rows, i, u);
    }
    forall j | 0 <= j < i ensures Key(t'.rows[j], TelegramUserId) != k {
      assert t'.rows[j] == t.rows[j];
    }
    PositionAt(t'.rows, TelegramUserId, i, k);
  }

  /** The insert case of `SaveForUserThenGet`. */
  lemma SaveForUserInserts(t: Table, k: int, token: string)
    requires Consistent(t)
    requires Position(t.rows, TelegramUserId, k).None?
    ensures var t' := Table(t.rows + [Row(t.nextId, k, token)], t.nextId + 1);
      && Consistent(t')
      && RowByUser(t'.rows, k) == Some(Row(t.nextId, k, token))
      && (forall u :: u != k ==> RowByUser(t'.rows, u) == RowByUser(t.rows, u))
  {
    var t' := Table(t.rows + [Row(t.nextId, k, token)], t.nextId + 1);
    var n := |t.rows|;
    forall i | 0 <= i < n ensures t'.rows[i] == t.rows[i] && t'.rows[i].telegramUserId != k {
      assert Key(t.rows[i], TelegramUserId) != k;
    }
    PositionAt(t'.rows, TelegramUserId, n, k);
    forall u | u != k ensures RowByUser(t'.rows, u) == RowByUser(t.rows, u) {
      ByUserAppend(t.rows, Row(t.nextId, k, token), u);
    }
  }

  /** Changing the token of row `i` does not move any other user's lookup. */
  lemma ByUserFrame(rows: seq<Row>, rows': seq<Row>, i: nat, u: int)
    requires i < |rows| && |rows'| == |rows|
    requires rows'[i].telegramUserId == rows[i].telegramUserId != u
    requires forall j :: 0 <= j < |rows| && j != i ==> rows'[j] == rows[j]
    ensures RowByUser(rows', u) == RowByUser(rows, u)
  {
    forall j | 0 <= j < |rows| ensures Key(rows'[j], TelegramUserId) == Key(rows[j], TelegramUserId) {
    }
    var p := Position(rows, TelegramUserId, u);
    if p.Some? {
      PositionAt(rows', TelegramUserId, p.value, u);
    }
  }

  /** Appending a row for another user does not move a user's lookup. */
  lemma ByUserAppend(rows: seq<Row>, extra: Row, u: int)
    requires extra.telegramUserId != u
    ensures RowByUser(rows + [extra], u) == RowByUser(rows, u)
  {
    var rows' := rows + [extra];
    forall j | 0 <= j < |rows| ensures rows'[j] == rows[j] {
    }
    var p := Position(rows, TelegramUserId, u);
    if p.Some? {
      PositionAt(rows', TelegramUserId, p.value, u);
    } else {
      assert forall j :: 0 <= j < |rows'| ==> Key(rows'[j], TelegramUserId) != u;
    }
  }

  /** The table as the process holds it, updated in place by the two operations. */
  class TokenTable {
    var rows: seq<Row>
    var nextId: int

    function Snapshot(): Table
      reads this
    {
      Table(rows, nextId)
    }

    ghost predicate Valid()
      reads this
    {
      Consistent(Snapshot())
    }

    /** The empty table created by `init_db`; the id sequence starts at 1. */
    constructor ()
      ensures Valid() && rows == [] && nextId == 1
    {
      rows := [];
      nextId := 1;
    }

    /** Scans the rows for the first one whose column `c` equals `k`. */
    method Locate(c: Column, k: int) returns (found: Option<nat>)
      ensures found == Position(rows, c, k)
    {
      var i := 0;
      while i < |rows|
        invariant 0 <= i <= |rows|
        invariant forall j :: 0 <= j < i ==> Key(rows[j], c) != k
      {
        if Key(rows[i], c) == k {
          found := Some(i);
          ghost var p := Position(rows, c, k);
          assert p.Some? && p.value >= i;
          return;
        }
        i := i + 1;
      }
      found := None;
    }

    /** `get_token(k)`: the row whose primary key is `k`, or none. */
    method GetToken(k: int) returns (found: Option<Row>)
      ensures found.Some? ==> found.value in rows && found.value.id == k
      ensures found.None? <==> forall i :: 0 <= i < |rows| ==> rows[i].id != k
      ensures found == RowById(rows, k)
    {
      var at := Locate(Id, k);
      found := if at.Some? then Some(rows[at.value]) else None;
    }

    /** `save_token(k, token)` as written: update by primary key, else insert. */
    method SaveToken(k: int, token: string) returns (outcome: SaveOutcome)
      requires Valid()
      modifies this
      ensures Valid()
      ensures (Snapshot(), outcome) == Save(old(Snapshot()), k, token)
    {
      SavePreservesConsistency(Snapshot(), k, token);
      var existing := Locate(Id, k);
      if existing.Some? {
        var i := existing.value;
        rows := rows[i := rows[i].(accessToken := token)];
        outcome := Updated;
      } else {
        var clash := Locate(TelegramUserId, k);
        if clash.Some? {
          outcome := UniqueViolation;
        } else {
          rows := rows + [Row(nextId, k, token)];
          nextId := nextId + 1;
          outcome := Inserted;
        }
      }
    }

    /** The intended lookup, by `telegram_user_id`. */
    method GetTokenForUser(k: int) returns (found: Option<Row>)
      ensures found.Some? ==> found.value in rows && found.value.telegramUserId == k
      ensures found.None? <==> forall i :: 0 <= i < |rows| ==> rows[i].telegramUserId != k
      ensures found == RowByUser(rows, k)
    {
      var at := Locate(TelegramUserId, k);
      found := if at.Some? then Some(rows[at.value]) else None;
    }

    /** The intended upsert, by `telegram_user_id`. */
    method SaveTokenForUser(k: int, token: string) returns (outcome: SaveOutcome)
      requires Valid()
      modifies this
      ensures Valid()
      ensures (Snapshot(), outcome) == SaveForUser(old(Snapshot()), k, token)
    {
      SaveForUserThenGet(Snapshot(), k, token);
      var existing := Locate(TelegramUserId, k);
      if existing.Some? {
        var i := existing.value;
        rows := rows[i := rows[i].(accessToken := token)];
        outcome := Updated;
      } else {
        rows := rows + [Row(nextId, k, token)];
        nextId := nextId + 1;
        outcome := Inserted;
      }
    }
  }
}
