/** PostfixHugslibKeyInput: the postfix placed on HugsLib's three
    modifier-key getters. While a replay context is installed, each getter's
    live result is replaced by the captured value for its key. */
module KeyOverride {
  import opened SyncTypes

  const ShiftGetter := "get_ShiftIsHeld"
  const AltGetter := "get_AltIsHeld"
  const ControlGetter := "get_ControlIsHeld"

  /** The postfix on the getter named `getter`, whose original result was
      `live`. A patched getter with any other name throws. */
  function PostfixKeyInput(current: Option<MenuContext>, getter: string, live: bool): (r: Result<bool>)
    ensures current.None? ==> r == Ok(live)
    ensures current.Some? ==> (r.Ok? <==> getter == ShiftGetter || getter == AltGetter || getter == ControlGetter)
  {
    match current
    case None => Ok(live)
    case Some(ctx) =>
      if getter == ShiftGetter then Ok(ctx.shiftIsHeld)
      else if getter == AltGetter then Ok(ctx.altIsHeld)
      else if getter == ControlGetter then Ok(ctx.ctrlIsHeld)
      else Err(UnexpectedGetter(getter))
  }

  /** The value one of the three patched getters returns to its caller. */
  function HeldKey(current: Option<MenuContext>, getter: string, live: bool): bool
    requires getter == ShiftGetter || getter == AltGetter || getter == ControlGetter
  {
    PostfixKeyInput(current, getter, live).value
  }

  /** What code that queries all three getters observes, given the keys
      actually held (`live`) and the installed context. */
  function ObservedKeys(current: Option<MenuContext>, live: MenuContext): MenuContext {
    MenuContext(
      HeldKey(current, ShiftGetter, live.shiftIsHeld),
      HeldKey(current, AltGetter, live.altIsHeld),
      HeldKey(current, ControlGetter, live.ctrlIsHeld))
  }

  /** Each getter returns exactly the captured field for its own key while a
      context is installed, whatever keys are actually held. */
  lemma OverrideReturnsCapturedKey(ctx: MenuContext, live: bool)
    ensures PostfixKeyInput(Some(ctx), ShiftGetter, live) == Ok(ctx.shiftIsHeld)
    ensures PostfixKeyInput(Some(ctx), AltGetter, live) == Ok(ctx.altIsHeld)
    ensures PostfixKeyInput(Some(ctx), ControlGetter, live) == Ok(ctx.ctrlIsHeld)
  {
  }

  /** Context fidelity: with a context installed every query observes that
      context; with none installed every query observes the live keys. */
  lemma ObservedKeysFidelity(current: Option<MenuContext>, live: MenuContext)
    ensures current.Some? ==> ObservedKeys(current, live) == current.value
    ensures current.None? ==> ObservedKeys(current, live) == live
  {
  }
}
