/** The three SyncWorkers of AllowTool.cs, as functions over a stream of
    tagged values: writing produces tokens, reading consumes them from the
    front of the stream and returns what is left. */
module SyncWorkers {
  import opened SyncTypes
  import opened MenuLookup

  function ReadType(s: seq<Token>): (r: Result<Read<TypeTag>>)
    ensures r.Ok? ==> |r.value.rest| < |s|
  {
    if |s| > 0 && s[0].TypeToken? then Ok(Read(s[0].t, s[1..])) else Err(StreamMismatch)
  }

  function ReadInt(s: seq<Token>): (r: Result<Read<int>>)
    ensures r.Ok? ==> |r.value.rest| < |s|
  {
    if |s| > 0 && s[0].IntToken? then Ok(Read(s[0].n, s[1..])) else Err(StreamMismatch)
  }

  function ReadBool(s: seq<Token>): (r: Result<Read<bool>>)
    ensures r.Ok? ==> |r.value.rest| < |s|
  {
    if |s| > 0 && s[0].BoolToken? then Ok(Read(s[0].b, s[1..])) else Err(StreamMismatch)
  }

  /** SyncWorkerForContextMenuEntryId, writing: the type, then the index. */
  function WriteEntryId(id: EntryId): seq<Token> {
    [TypeToken(id.kind)] + [IntToken(id.index)]
  }

  /** SyncWorkerForContextMenuEntryId, reading: the type, then the index, in argument order. */
  function ReadEntryId(s: seq<Token>): Result<Read<EntryId>> {
    match ReadType(s)
    case Err(e) => Err(e)
    case Ok(Read(kind, s1)) =>
      match ReadInt(s1)
      case Err(e) => Err(e)
      case Ok(Read(index, s2)) => Ok(Read(EntryId(kind, index), s2))
  }

  /** SyncWorkerForActivateContext: shift, alt and ctrl, bound in that order. */
  function WriteContext(ctx: MenuContext): seq<Token> {
    [BoolToken(ctx.shiftIsHeld), BoolToken(ctx.altIsHeld), BoolToken(ctx.ctrlIsHeld)]
  }

  function ReadContext(s: seq<Token>): Result<Read<MenuContext>> {
    match ReadBool(s)
    case Err(e) => Err(e)
    case Ok(Read(shift, s1)) =>
      match ReadBool(s1)
      case Err(e) => Err(e)
      case Ok(Read(alt, s2)) =>
        match ReadBool(s2)
        case Err(e) => Err(e)
        case Ok(Read(ctrl, s3)) => Ok(Read(MenuContext(shift, alt, ctrl), s3))
  }

  /** SyncWorkerForActivateAction, writing: the entry is resolved through the
      forward table (an unknown entry throws), its id is written, then the
      designator's type. */
  function WriteAction(forward: map<Entry, EntryId>, action: MenuAction): (r: Result<seq<Token>>)
    ensures r.Err? <==> action.entry !in forward
  {
    if action.entry !in forward then Err(UnknownMenuEntry(action.entry))
    else Ok(WriteEntryId(forward[action.entry]) + [TypeToken(action.designator.kind)])
  }

  /** SyncWorkerForActivateAction, reading: the id is resolved through the
      reverse table, with an error for an unknown type and one for an index
      outside the array; the designator is a fresh instance of the type read
      next (`create` stands for Activator.CreateInstance). A decoded action is
      always remote. */
  function ReadAction(reverse: map<TypeTag, seq<Entry>>, s: seq<Token>, create: TypeTag -> Designator)
    : (r: Result<Read<MenuAction>>)
    ensures r.Ok? ==> r.value.value.isRemote
    ensures r.Ok? ==> exists k :: k in reverse && r.value.value.entry in reverse[k]
  {
    match ReadEntryId(s)
    case Err(e) => Err(e)
    case Ok(Read(id, s1)) =>
      if id.kind !in reverse then Err(UnknownDesignatorType(id.kind))
      else if id.index < 0 || id.index >= |reverse[id.kind]| then Err(EntryIndexOutOfRange(id.kind, id.index))
      else
        var entry := reverse[id.kind][id.index];
        match ReadType(s1)
        case Err(e) => Err(e)
        case Ok(Read(t, s2)) => Ok(Read(MenuAction(true, entry, create(t)), s2))
  }

  /** Reading an id back yields the id written, and leaves the rest of the stream. */
  lemma EntryIdRoundTrip(id: EntryId, rest: seq<Token>)
    ensures ReadEntryId(WriteEntryId(id) + rest) == Ok(Read(id, rest))
  {
    var s := WriteEntryId(id) + rest;
    assert s[1..] == [IntToken(id.index)] + rest;
    assert s[1..][1..] == rest;
  }

  /** Reading a context back yields the context written, field by field. */
  lemma ContextRoundTrip(ctx: MenuContext, rest: seq<Token>)
    ensures ReadContext(WriteContext(ctx) + rest) == Ok(Read(ctx, rest))
  {
    var s := WriteContext(ctx) + rest;
    assert s[1..][1..][1..] == rest;
  }

  /** The errors of reading an action, and its result when there is none:
      an unknown type, then an index outside the array, are reported before
      the designator type is read; otherwise the entry is the one at the index. */
  lemma ReadActionOutcome(reverse: map<TypeTag, seq<Entry>>, id: EntryId, rest: seq<Token>, create: TypeTag -> Designator)
    ensures var r := ReadAction(reverse, WriteEntryId(id) + rest, create);
      && (id.kind !in reverse ==> r == Err(UnknownDesignatorType(id.kind)))
      && (id.kind in reverse && (id.index < 0 || id.index >= |reverse[id.kind]|) ==>
            r == Err(EntryIndexOutOfRange(id.kind, id.index)))
      && (id.kind in reverse && 0 <= id.index < |reverse[id.kind]| ==>
            match ReadType(rest)
            case Err(e) => r == Err(e)
            case Ok(Read(t, s)) => r == Ok(Read(MenuAction(true, reverse[id.kind][id.index], create(t)), s)))
  {
    EntryIdRoundTrip(id, rest);
  }

  /** The action round trip: over tables that agree on every position, an
      action written with the forward table is read back through the reverse
      table as the same entry, a fresh designator of the same type, and
      `isRemote` set. */
  lemma ActionRoundTrip(t: Tables, action: MenuAction, rest: seq<Token>, create: TypeTag -> Designator)
    requires Consistent(t) && action.entry in t.forward
    ensures WriteAction(t.forward, action).Ok?
    ensures ReadAction(t.reverse, WriteAction(t.forward, action).value + rest, create)
      == Ok(Read(MenuAction(true, action.entry, create(action.designator.kind)), rest))
  {
    var id := t.forward[action.entry];
    var tail := [TypeToken(action.designator.kind)] + rest;
    assert WriteAction(t.forward, action).value + rest == WriteEntryId(id) + tail;
    ReadActionOutcome(t.reverse, id, tail, create);
    assert tail[1..] == rest;
  }

  /** After a build that stops on a repeated handled type, the tables stay
      partly filled: the second provider's entries are in the forward table
      under the first provider's array, so writing such an entry and reading
      it back yields the first provider's entry at that index instead. */
  lemma PartialTablesMisdecode(kind: TypeTag, e1: Entry, e2: Entry, designator: Designator, create: TypeTag -> Designator)
    requires e1 != e2
    ensures var b := BuildTables([Provider(kind, [e1]), Provider(kind, [e2])]);
      && b.failure == Some(DuplicateDesignatorType(kind))
      && e2 in b.tables.forward && b.tables.forward[e2] == EntryId(kind, 0)
      && kind in b.tables.reverse && b.tables.reverse[kind] == [e1]
      && WriteAction(b.tables.forward, MenuAction(false, e2, designator)).Ok?
      && ReadAction(b.tables.reverse, WriteAction(b.tables.forward, MenuAction(false, e2, designator)).value, create)
           == Ok(Read(MenuAction(true, e1, create(designator.kind)), []))
  {
    var p1, p2 := Provider(kind, [e1]), Provider(kind, [e2]);
    var ps := [p1, p2];
    assert ps[..1] == [p1] && [p1][..0] == [];
    var b1 := ProviderStep(EmptyBuild, p1);
    assert AddEntries(EmptyBuild, p1, 1) == AddEntry(EmptyBuild, e1, EntryId(kind, 0));
    assert b1.failure.None? && b1.tables.forward == map[e1 := EntryId(kind, 0)];
    assert b1.tables.reverse == map[kind := [e1]];
    assert BuildTables([p1]) == b1;
    var b := BuildTables(ps);
    assert AddEntries(b1, p2, 1) == AddEntry(b1, e2, EntryId(kind, 0));
    assert b == AddProvider(AddEntry(b1, e2, EntryId(kind, 0)), p2);
    assert b.tables.forward == map[e1 := EntryId(kind, 0), e2 := EntryId(kind, 0)];
    assert b.tables.reverse == b1.tables.reverse;
    ReadActionOutcome(b.tables.reverse, EntryId(kind, 0), [TypeToken(designator.kind)], create);
    assert WriteAction(b.tables.forward, MenuAction(false, e2, designator)).value
      == WriteEntryId(EntryId(kind, 0)) + [TypeToken(designator.kind)];
    assert [TypeToken(designator.kind)][1..] == [];
  }

  /** SyncWorkerForActivateAction in the writing direction: the tables are
      populated first, and a build failure escapes before anything is written. */
  method SyncWriteAction(tables: MenuLookupTables, providers: seq<Provider>, action: MenuAction)
    returns (r: Result<seq<Token>>)
    modifies tables
    ensures tables.forward.Some? && tables.reverse.Some?
    ensures old(tables.forward).Some? && old(tables.reverse).Some? ==>
      tables.forward == old(tables.forward) && tables.reverse == old(tables.reverse)
    ensures old(tables.forward).None? || old(tables.reverse).None? ==>
      var b := BuildTables(providers);
      tables.forward == Some(b.tables.forward) && tables.reverse == Some(b.tables.reverse)
    ensures r == (var b := BuildTables(providers);
                  if (old(tables.forward).None? || old(tables.reverse).None?) && b.failure.Some?
                  then Err(b.failure.value)
                  else WriteAction(tables.forward.value, action))
  {
    var failure := tables.PopulateIfNeeded(providers);
    if failure.Some? {
      return Err(failure.value);
    }
    r := WriteAction(tables.forward.value, action);
  }

  /** SyncWorkerForActivateAction in the reading direction. */
  method SyncReadAction(tables: MenuLookupTables, providers: seq<Provider>, s: seq<Token>, create: TypeTag -> Designator)
    returns (r: Result<Read<MenuAction>>)
    modifies tables
    ensures tables.forward.Some? && tables.reverse.Some?
    ensures old(tables.forward).Some? && old(tables.reverse).Some? ==>
      tables.forward == old(tables.forward) && tables.reverse == old(tables.reverse)
    ensures old(tables.forward).None? || old(tables.reverse).None? ==>
      var b := BuildTables(providers);
      tables.forward == Some(b.tables.forward) && tables.reverse == Some(b.tables.reverse)
    ensures r == (var b := BuildTables(providers);
                  if (old(tables.forward).None? || old(tables.reverse).None?) && b.failure.Some?
                  then Err(b.failure.value)
                  else ReadAction(tables.reverse.value, s, create))
  {
    var failure := tables.PopulateIfNeeded(providers);
    if failure.Some? {
      return Err(failure.value);
    }
    r := ReadAction(tables.reverse.value, s, create);
  }
}
