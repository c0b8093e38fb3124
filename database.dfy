/**
 * `insert_token` and `get_tokens`: the `tokens` table as a sequence of rows, the insert as an
 * ordered effect (append a row, then send one record), and the listing as a row-by-row mapping.
 */
module Database {
  import opened Wrappers
  import opened Casts
  import opened Foreign
  import opened Models
  import opened Strings
  import opened Extract
  import opened Websocket

  /** The `tokens` table; `tokens` holds the rows in the order they were inserted. */
  class Db {
    var tokens: seq<Row>

    constructor (rows: seq<Row>)
      ensures tokens == rows
    {
      tokens := rows;
    }
  }

  /**
   * How one database call goes: whether the pool hands out a connection, and whether the
   * statement then succeeds on the server.
   */
  datatype DbCall = DbCall(connected: bool, executed: bool)

  /** The errors a call returns with `?`: pool, statement, or a message from the mapper. */
  datatype DbError = Connection | Statement | Validation(message: string)

  datatype InsertOutcome = Inserted | Failed(error: DbError) | Panicked(panic: Panic)

  /** What one insert leaves behind: its outcome, the rows it appended, the records it sent. */
  datatype Effect = Effect(outcome: InsertOutcome, stored: seq<Row>, sent: seq<TokenDto>)

  /**
   * The effect of `insert_token`, step by step: obtain a connection, take the first
   * element, extract the members, execute the INSERT, build the record, send it.
   */
  function InsertEffect(event: EventLog, crates: Crates, call: DbCall): Effect {
    if !call.connected then Effect(Failed(Connection), [], [])
    else match FirstElement(event.data)
      case Failure(msg) => Effect(Failed(Validation(msg)), [], [])
      case Success(t) =>
        match MapFields(t)
        case Failure(msg) => Effect(Failed(Validation(msg)), [], [])
        case Success(row) =>
          if !call.executed then Effect(Failed(Statement), [], [])
          else match BroadcastDto(t, crates)
            case Failure(p) => Effect(Panicked(p), [row], [])
            case Success(dto) => Effect(Inserted, [row], [dto])
  }

  /**
   * `insert_token(pool, event, ws_sender)`. The result of `send` is discarded, so the
   * outcome does not depend on how many receivers there are.
   * The steps are those of `InsertEffect`, which the lemmas below are about; the `ensures`
   * ties the new table and sent log to it.
   */
  method InsertToken(db: Db, event: EventLog, sender: WsSender, crates: Crates, call: DbCall)
    returns (outcome: InsertOutcome)
    modifies db, sender`sent
    ensures var e := InsertEffect(event, crates, call);
      && outcome == e.outcome
      && db.tokens == old(db.tokens) + e.stored
      && sender.sent == old(sender.sent) + e.sent
  {
    if !call.connected {
      return Failed(Connection);
    }
    var tokenData := FirstElement(event.data);
    if tokenData.Failure? {
      return Failed(Validation(tokenData.error));
    }
    var t := tokenData.value;
    var row := MapFields(t);
    if row.Failure? {
      return Failed(Validation(row.error));
    }
    if !call.executed {
      return Failed(Statement);
    }
    db.tokens := db.tokens + [row.value];
    var token := BroadcastDto(t, crates);
    if token.Failure? {
      return Panicked(token.error);
    }
    var _ := sender.Send(token.value);
    return Inserted;
  }

  // ---------------------------------------------------------------------------------------
  // Reading the table back.

  /**
   * The row-to-record mapping of `get_tokens`: the owner is parsed with `unwrap` (a panic
   * when it is not an account ID), quotes are trimmed off `total_supply`, an undecodable
   * reference hash becomes `None`, and `decimals` is cut from i16 to u8.
   */
  function ReadRow(row: Row, crates: Crates): Result<TokenDto, Panic> {
    if !crates.isAccountId(row.ownerId) then Failure(Panic("owner_id"))
    else Success(TokenDto(
      row.ownerId,
      TrimQuotes(row.totalSupply),
      row.spec,
      row.name,
      row.symbol,
      row.icon,
      row.reference,
      match row.referenceHash
        case None => None
        case Some(s) => crates.decodeBase64(s),
      AsU8(row.decimals),
      row.image))
  }

  /** `rows.into_iter().map(..).collect()`: one record per row, in order, unless some row panics. */
  function ReadRows(rows: seq<Row>, crates: Crates): (r: Result<seq<TokenDto>, Panic>)
    ensures r.Success? <==> forall i :: 0 <= i < |rows| ==> crates.isAccountId(rows[i].ownerId)
    ensures r.Success? ==> |r.value| == |rows|
    ensures r.Success? ==> forall i :: 0 <= i < |rows| ==> ReadRow(rows[i], crates) == Success(r.value[i])
  {
    if rows == [] then Success([])
    else
      var first :- ReadRow(rows[0], crates);
      var rest :- ReadRows(rows[1..], crates);
      Success([first] + rest)
  }

  /** `ORDER BY created_at DESC`, with creation times increasing in insertion order. */
  function NewestFirst(rows: seq<Row>): (r: seq<Row>)
    ensures |r| == |rows|
    ensures forall i :: 0 <= i < |rows| ==> r[i] == rows[|rows| - 1 - i]
  {
    if rows == [] then [] else NewestFirst(rows[1..]) + [rows[0]]
  }

  datatype ListOutcome = Listed(tokens: seq<TokenDto>) | ListFailed(error: DbError) | ListPanicked(panic: Panic)

  /** The outcome of `get_tokens` on a table holding `rows`. */
  function ListTokens(rows: seq<Row>, crates: Crates, call: DbCall): ListOutcome {
    if !call.connected then ListFailed(Connection)
    else if !call.executed then ListFailed(Statement)
    else match ReadRows(NewestFirst(rows), crates)
      case Failure(p) => ListPanicked(p)
      case Success(tokens) => Listed(tokens)
  }

  /**
   * `get_tokens(pool)`: it only reads the table. Its result is `ListTokens`, which the
   * lemmas below are about.
   */
  method GetTokens(db: Db, crates: Crates, call: DbCall) returns (r: ListOutcome)
    ensures r == ListTokens(db.tokens, crates, call)
  {
    if !call.connected {
      return ListFailed(Connection);
    }
    if !call.executed {
      return ListFailed(Statement);
    }
    var rows := NewestFirst(db.tokens);
    var tokens := ReadRows(rows, crates);
    if tokens.Failure? {
      return ListPanicked(tokens.error);
    }
    return Listed(tokens.value);
  }

  // ---------------------------------------------------------------------------------------
  // Properties of one insert.

  /**
   * A failed insert changes nothing; every other outcome appends exactly the extracted row;
   * a record is sent only after its row is stored, and only on success.
   */
  lemma InsertEffectShape(event: EventLog, crates: Crates, call: DbCall)
    ensures var e := InsertEffect(event, crates, call);
      && (e.outcome.Failed? <==> e.stored == [])
      && (e.outcome.Failed? ==> e.sent == [])
      && (!e.outcome.Failed? ==> MapPayload(event.data).Success? && e.stored == [MapPayload(event.data).value])
      && (e.outcome.Panicked? ==> e.sent == [])
      && (e.outcome == Inserted <==> |e.sent| == 1)
      && |e.sent| <= |e.stored| <= 1
  {
  }

  /**
   * The error of a failed insert: no connection first, then the mapper's message, then the
   * statement's failure; a well-formed payload on a working database is always stored.
   */
  lemma InsertErrors(event: EventLog, crates: Crates, call: DbCall)
    ensures var e := InsertEffect(event, crates, call);
      && (!call.connected ==> e.outcome == Failed(Connection))
      && (call.connected ==> forall msg ::
            e.outcome == Failed(Validation(msg)) <==> MapPayload(event.data) == Failure(msg))
      && (call.connected && MapPayload(event.data).Success? ==>
            (e.outcome == Failed(Statement) <==> !call.executed))
  {
  }

  /**
   * An insert succeeds exactly when the database works, the payload is well formed, the owner
   * is an account ID and the reference hash, when it is a string, is base64.
   */
  lemma InsertedIff(event: EventLog, crates: Crates, call: DbCall)
    ensures InsertEffect(event, crates, call).outcome == Inserted <==>
      && call.connected && call.executed
      && MapPayload(event.data).Success?
      && crates.isAccountId(MapPayload(event.data).value.ownerId)
      && (MapPayload(event.data).value.referenceHash.Some? ==>
            crates.decodeBase64(MapPayload(event.data).value.referenceHash.value).Some?)
  {
    if call.connected && MapPayload(event.data).Success? {
      BroadcastDtoPanics(event.data.items[0], crates);
    }
  }

  /**
   * A payload whose owner is not an account ID, or whose reference hash is a string that is
   * not base64, is stored by the INSERT and then panics: one row, nothing sent.
   */
  lemma PanicAfterInsert(event: EventLog, crates: Crates, call: DbCall)
    requires call.connected && call.executed && MapPayload(event.data).Success?
    requires var row := MapPayload(event.data).value;
      !crates.isAccountId(row.ownerId)
      || (row.referenceHash.Some? && crates.decodeBase64(row.referenceHash.value).None?)
    ensures var e := InsertEffect(event, crates, call);
      e.outcome.Panicked? && e.stored == [MapPayload(event.data).value] && e.sent == []
  {
    BroadcastDtoPanics(event.data.items[0], crates);
  }

  /** The insert panics at the owner exactly when the stored row's owner is not an account ID. */
  lemma OwnerPanicIff(event: EventLog, crates: Crates, call: DbCall)
    ensures var e := InsertEffect(event, crates, call);
      e.outcome == Panicked(Panic("owner_id")) <==>
        && call.connected && call.executed && MapPayload(event.data).Success?
        && !crates.isAccountId(MapPayload(event.data).value.ownerId)
    ensures var e := InsertEffect(event, crates, call);
      e.outcome == Panicked(Panic("owner_id")) ==>
        |e.stored| == 1 && !crates.isAccountId(e.stored[0].ownerId)
  {
    if call.connected && MapPayload(event.data).Success? {
      BroadcastDtoPanics(event.data.items[0], crates);
    }
  }

  /** The sent record carries the stored row's values, its `decimals` being the row's low byte. */
  lemma SentMatchesStored(event: EventLog, crates: Crates, call: DbCall)
    requires InsertEffect(event, crates, call).outcome == Inserted
    ensures var e := InsertEffect(event, crates, call);
      |e.stored| == 1 && |e.sent| == 1
      && var row, dto := e.stored[0], e.sent[0];
      && dto.ownerId == row.ownerId && dto.totalSupply == row.totalSupply
      && dto.spec == row.spec && dto.name == row.name && dto.symbol == row.symbol
      && dto.icon == row.icon && dto.reference == row.reference
      && dto.decimals == AsU8(row.decimals) && dto.image == row.image
  {
    BroadcastAgreesWithRow(event.data.items[0], crates);
  }

  /**
   * Reading the stored row back gives the sent record, except that `total_supply` has its
   * quotes trimmed: the owner still parses, the reference hash decodes to the same bytes, and
   * `(d as i16) as u8 == d as u8`.
   */
  lemma ReadBackMatchesSent(event: EventLog, crates: Crates, call: DbCall)
    requires InsertEffect(event, crates, call).outcome == Inserted
    ensures var e := InsertEffect(event, crates, call);
      |e.stored| == 1 && |e.sent| == 1
      && ReadRow(e.stored[0], crates) == Success(e.sent[0].(totalSupply := TrimQuotes(e.sent[0].totalSupply)))
  {
    BroadcastAgreesWithRow(event.data.items[0], crates);
  }

  // ---------------------------------------------------------------------------------------
  // Properties of the listing.

  /** The record read from a row: the same strings, `total_supply` free of outer quotes. */
  lemma ReadRowContent(row: Row, crates: Crates)
    ensures ReadRow(row, crates).Success? <==> crates.isAccountId(row.ownerId)
    ensures ReadRow(row, crates).Success? ==>
      var dto := ReadRow(row, crates).value;
      && dto.ownerId == row.ownerId
      && (exists i :: QuotesAround(row.totalSupply, i, dto.totalSupply))
      && (dto.totalSupply == [] || (dto.totalSupply[0] != Quote && dto.totalSupply[|dto.totalSupply| - 1] != Quote))
      && dto.spec == row.spec && dto.name == row.name && dto.symbol == row.symbol
      && dto.icon == row.icon && dto.reference == row.reference && dto.image == row.image
      && (row.referenceHash.None? ==> dto.referenceHash.None?)
      && (row.referenceHash.Some? ==> dto.referenceHash == crates.decodeBase64(row.referenceHash.value))
      && (dto.decimals - row.decimals) % 0x100 == 0
  {
  }

  /**
   * With a working database the listing has one record per row, newest first, exactly when
   * every stored owner is an account ID; otherwise it panics.
   */
  lemma ListingOnePerRow(rows: seq<Row>, crates: Crates, call: DbCall)
    requires call.connected && call.executed
    ensures ListTokens(rows, crates, call).Listed? <==>
      forall i :: 0 <= i < |rows| ==> crates.isAccountId(rows[i].ownerId)
    ensures !ListTokens(rows, crates, call).Listed? ==> ListTokens(rows, crates, call).ListPanicked?
    ensures ListTokens(rows, crates, call).Listed? ==>
      var tokens := ListTokens(rows, crates, call).tokens;
      && |tokens| == |rows|
      && forall i :: 0 <= i < |rows| ==> ReadRow(rows[|rows| - 1 - i], crates) == Success(tokens[i])
  {
    var newest := NewestFirst(rows);
    if forall i :: 0 <= i < |rows| ==> crates.isAccountId(rows[i].ownerId) {
      forall i | 0 <= i < |newest| ensures crates.isAccountId(newest[i].ownerId) {
        assert newest[i] == rows[|rows| - 1 - i];
      }
    } else {
      var k :| 0 <= k < |rows| && !crates.isAccountId(rows[k].ownerId);
      assert newest[|rows| - 1 - k] == rows[k];
    }
  }

  /**
   * A stored row whose owner is not an account ID makes every later listing panic, since
   * rows are never removed: one bad event stops the history from being read.
   */
  lemma BadOwnerPoisonsListing(event: EventLog, crates: Crates, call: DbCall,
                               before: seq<Row>, after: seq<Row>, listCall: DbCall)
    requires InsertEffect(event, crates, call).outcome == Panicked(Panic("owner_id"))
    requires listCall.connected && listCall.executed
    ensures ListTokens(before + InsertEffect(event, crates, call).stored + after, crates, listCall).ListPanicked?
  {
    var e := InsertEffect(event, crates, call);
    OwnerPanicIff(event, crates, call);
    var rows := before + e.stored + after;
    assert rows[|before|] == e.stored[0];
    ListingOnePerRow(rows, crates, listCall);
  }

  /** The row appended last is read first. */
  lemma LastRowListedFirst(before: seq<Row>, row: Row, crates: Crates, listCall: DbCall)
    requires ListTokens(before + [row], crates, listCall).Listed?
    ensures var tokens := ListTokens(before + [row], crates, listCall).tokens;
      |tokens| == |before| + 1 && ReadRow(row, crates) == Success(tokens[0])
  {
    var rows := before + [row];
    ListingOnePerRow(rows, crates, listCall);
    assert rows[|rows| - 1] == row;
  }

  /**
   * After a successful insert, a successful listing starts with the record that was just
   * sent (its `total_supply` trimmed), followed by the earlier rows' records.
   */
  lemma NewestInsertListedFirst(before: seq<Row>, event: EventLog, crates: Crates, call: DbCall,
                                listCall: DbCall)
    requires InsertEffect(event, crates, call).outcome == Inserted
    requires ListTokens(before + InsertEffect(event, crates, call).stored, crates, listCall).Listed?
    ensures var e := InsertEffect(event, crates, call);
      var tokens := ListTokens(before + e.stored, crates, listCall).tokens;
      && |tokens| == |before| + 1
      && tokens[0] == e.sent[0].(totalSupply := TrimQuotes(e.sent[0].totalSupply))
  {
    var e := InsertEffect(event, crates, call);
    ReadBackMatchesSent(event, crates, call);
    assert e.stored == [e.stored[0]];
    LastRowListedFirst(before, e.stored[0], crates, listCall);
  }
}
