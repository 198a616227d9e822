/** Values shared by every component of the Allow Tool compatibility layer:
    CLR object references and types as abstract values, the three structs of
    the layer (ContextMenuEntryId, MenuActivateAction, MenuActivateContext),
    the tagged values of a sync stream, and the exceptions the layer throws. */
module SyncTypes {

  datatype Option<+T> = None | Some(value: T)

  /** A CLR type, identified by its namespace and its simple name. */
  datatype TypeTag = TypeTag(ns: string, name: string)

  /** A CLR object reference: its identity and its runtime type (`GetType()`). */
  datatype Obj = Obj(id: nat, kind: TypeTag)

  /** A context-menu entry of Allow Tool (an instance of a BaseContextMenuEntry subclass). */
  type Entry = Obj

  /** A RimWorld Designator instance. */
  type Designator = Obj

  /** ContextMenuEntryId: the handled designator type of a menu provider and
      the position of the entry in that provider's `entries` array. */
  datatype EntryId = EntryId(kind: TypeTag, index: int)

  /** MenuActivateAction: the arguments of one menu activation. */
  datatype MenuAction = MenuAction(isRemote: bool, entry: Entry, designator: Designator)

  /** MenuActivateContext: the modifier keys held when the action was activated. */
  datatype MenuContext = MenuContext(shiftIsHeld: bool, altIsHeld: bool, ctrlIsHeld: bool)

  /** One value of a Multiplayer sync stream, tagged with the kind of `Write` that produced it. */
  datatype Token = TypeToken(t: TypeTag) | IntToken(n: int) | BoolToken(b: bool)

  /** The exceptions that the modelled code throws or lets escape. */
  datatype Error =
    | UnknownMenuEntry(entry: Entry)                // InvalidOperationException when writing an action
    | UnknownDesignatorType(kind: TypeTag)          // InvalidOperationException when reading an action
    | EntryIndexOutOfRange(kind: TypeTag, index: int) // ArgumentOutOfRangeException when reading an action
    | DuplicateEntry(entry: Entry)                  // Dictionary.Add on the forward table
    | DuplicateDesignatorType(kind: TypeTag)        // Dictionary.Add on the reverse table
    | UnexpectedGetter(name: string)                // the key postfix patched onto an unknown getter
    | StreamMismatch                                // the stream holds no value of the requested kind

  datatype Result<+T> = Ok(value: T) | Err(error: Error)

  /** A value read from the front of a sync stream, with the rest of the stream. */
  datatype Read<+T> = Read(value: T, rest: seq<Token>)
}
