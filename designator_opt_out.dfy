/** PrefixDesignateCell / PostfixDesignateCell: the hooks placed on the
    DesignateSingleCell, DesignateMultiCell and DesignateThing methods of
    Allow Tool's select-similar designators, ahead of Multiplayer's own
    designator sync. For the designators this layer handles itself, the
    prefix raises Multiplayer's `dontSync` flag and tells the postfix, through
    `__state`, to lower it again. */
module DesignatorOptOut {
  import opened SyncTypes

  /** The designator kinds whose generic designation sync is switched off. */
  predicate OptsOut(kind: TypeTag) {
    kind.ns == "AllowTool" &&
    match kind.name
    case "Designator_SelectSimilarReverse" => true
    case "Designator_SelectSimilar" => true
    case "Designator_StripMine" => true
    case _ => false
  }

  /** The reverse designator first hands over to the designator it stands for. */
  predicate PicksFromReverse(kind: TypeTag) {
    kind.ns == "AllowTool" && kind.name == "Designator_SelectSimilarReverse"
  }

  /** Exactly the three named Allow Tool designators opt out. */
  lemma OptsOutExactly(kind: TypeTag)
    ensures OptsOut(kind) <==>
      kind.ns == "AllowTool" &&
      (kind.name == "Designator_SelectSimilarReverse" || kind.name == "Designator_SelectSimilar"
       || kind.name == "Designator_StripMine")
    ensures PicksFromReverse(kind) ==> OptsOut(kind)
  {
  }

  /** The flag after one patched Designate call as the hooks are written:
      Harmony runs a postfix only when the patched method returns normally,
      so a designation that throws leaves the prefix's raised flag in place. */
  function DontSyncAfter(before: bool, kind: TypeTag, bodyThrows: bool): bool {
    if bodyThrows then OptsOut(kind) || before
    else if OptsOut(kind) then false else before
  }

  /** The flag after the call were the lowering done in a finalizer, which
      runs on both the normal and the exceptional exit. */
  function DontSyncAfterWithFinalizer(before: bool, kind: TypeTag, bodyThrows: bool): bool {
    if OptsOut(kind) then false else before
  }

  /** On a normal return the hooks leave an opting-out kind's flag lowered and
      any other kind's flag untouched; the raised flag stays behind only when
      the designation of an opting-out kind throws over a lowered flag. */
  lemma DontSyncAfterSpec(before: bool, kind: TypeTag, bodyThrows: bool)
    ensures !OptsOut(kind) ==> DontSyncAfter(before, kind, bodyThrows) == before
    ensures !bodyThrows && OptsOut(kind) ==> !DontSyncAfter(before, kind, bodyThrows)
    ensures DontSyncAfter(before, kind, bodyThrows) != before <==> OptsOut(kind) && (bodyThrows != before)
  {
  }

  /** As written: a Designator_SelectSimilar whose designation throws leaves
      Multiplayer's `dontSync` raised after the call, which switches off the
      sync of everything that follows. */
  lemma DontSyncLeaksWhenDesignationThrows()
    ensures var kind := TypeTag("AllowTool", "Designator_SelectSimilar");
      OptsOut(kind) && DontSyncAfter(false, kind, true)
  {
  }

  /** Corrected: with the lowering in a finalizer, the call leaves the flag
      as it found it whenever it was lowered before, whether or not the
      designation throws, and an opting-out kind always ends with it lowered. */
  lemma FinalizerRestoresDontSync(before: bool, kind: TypeTag, bodyThrows: bool)
    ensures !before ==> !DontSyncAfterWithFinalizer(before, kind, bodyThrows)
    ensures OptsOut(kind) ==> !DontSyncAfterWithFinalizer(before, kind, bodyThrows)
    ensures !OptsOut(kind) ==> DontSyncAfterWithFinalizer(before, kind, bodyThrows) == before
    ensures !bodyThrows ==> DontSyncAfterWithFinalizer(before, kind, bodyThrows) == DontSyncAfter(before, kind, bodyThrows)
  {
  }

  /** Multiplayer.Client.Multiplayer.dontSync, and the record of the calls to
      DesignatorContextMenuController.TryPickDesignatorFromReverseDesignator. */
  class DesignateCellHooks {
    var dontSync: bool
    var reversePicks: seq<Designator>

    constructor (dontSync: bool)
      ensures this.dontSync == dontSync && reversePicks == []
    {
      this.dontSync := dontSync;
      reversePicks := [];
    }

    /** PrefixDesignateCell; the result is `__state`. */
    method PrefixDesignateCell(instance: Designator) returns (state: bool)
      modifies this
      ensures state == OptsOut(instance.kind)
      ensures dontSync == (state || old(dontSync))
      ensures reversePicks == old(reversePicks) + (if PicksFromReverse(instance.kind) then [instance] else [])
    {
      var designatorType := instance.kind;
      if designatorType.ns == "AllowTool" {
        if designatorType.name == "Designator_SelectSimilarReverse" {
          reversePicks := reversePicks + [instance];
        }
        if designatorType.name == "Designator_SelectSimilarReverse" || designatorType.name == "Designator_SelectSimilar"
           || designatorType.name == "Designator_StripMine" {
          dontSync := true;
          state := true;
          return;
        }
      }
      state := false;
    }

    /** PostfixDesignateCell: lowers the flag only when the prefix raised it. */
    method PostfixDesignateCell(state: bool)
      modifies this
      ensures dontSync == (if state then false else old(dontSync))
      ensures reversePicks == old(reversePicks)
    {
      if state {
        dontSync := false;
      }
    }

    /** One patched Designate call: the prefix, then the designation (whose
        Multiplayer sync prefix sees `syncSkipped`, and which throws when
        `bodyThrows`), then the postfix, which Harmony skips when the
        designation throws. */
    method PatchedDesignate(instance: Designator, bodyThrows: bool) returns (syncSkipped: bool, threw: bool)
      modifies this
      ensures syncSkipped == (OptsOut(instance.kind) || old(dontSync))
      ensures threw == bodyThrows
      ensures dontSync == DontSyncAfter(old(dontSync), instance.kind, bodyThrows)
      ensures reversePicks == old(reversePicks) + (if PicksFromReverse(instance.kind) then [instance] else [])
    {
      var state := PrefixDesignateCell(instance);
      syncSkipped := dontSync;
      threw := bodyThrows;
      if threw {
        return;
      }
      PostfixDesignateCell(state);
    }
  }
}
