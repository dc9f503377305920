/**
 * The swap form (components/features/SwapForm.tsx): the token and chain
 * selection, the from/to exchange, validation, and the config it submits or
 * saves as a template.
 */
module SwapForm {
  import opened Types
  import opened JsString
  import opened Utils

  /** `SUPPORTED_TOKENS[0].symbol` and `SUPPORTED_TOKENS[1].symbol`. */
  const InitialFromToken := "ETH"
  const InitialToToken := "USDC"

  /** `SUPPORTED_CHAINS[0].name`, the initial value of both chain selects. */
  const InitialChain := "Base"

  /** `DEFAULT_SLIPPAGE`, in percent. */
  const DefaultSlippage: real := 0.5

  /** What the from/to exchange acts on. */
  datatype Route = Route(fromToken: string, toToken: string, fromChain: string, toChain: string)

  /** The route with its two ends exchanged. */
  function Reversed(r: Route): (r': Route)
    ensures r'.fromToken == r.toToken && r'.toToken == r.fromToken
    ensures r'.fromChain == r.toChain && r'.toChain == r.fromChain
  {
    Route(r.toToken, r.fromToken, r.toChain, r.fromChain)
  }

  /** Exchanging the ends twice gives back the route. */
  lemma ReversedTwice(r: Route)
    ensures Reversed(Reversed(r)) == r
  {
  }

  /** `validateAmount(amount) && fromToken !== toToken`. */
  predicate SwapValid(parseFloat: FloatParser, r: Route, amount: string) {
    ValidateAmount(parseFloat, amount) && r.fromToken != r.toToken
  }

  function BuildConfig(r: Route, amount: string, slippage: real): (c: SwapConfig)
    ensures c.fromToken == r.fromToken && c.toToken == r.toToken
    ensures c.fromChain == r.fromChain && c.toChain == r.toChain
    ensures c.amount == amount && c.slippageTolerance == slippage
  {
    SwapConfig(r.fromToken, r.toToken, r.fromChain, r.toChain, amount, slippage)
  }

  class Form {
    var fromToken: string
    var toToken: string
    var fromChain: string
    var toChain: string
    var amount: string
    var slippage: real
    var templateName: string
    var showSaveTemplate: bool

    function CurrentRoute(): Route
      reads this
    {
      Route(fromToken, toToken, fromChain, toChain)
    }

    /**
     * The form as first shown: the first two supported tokens, which differ,
     * the first chain on both sides, no amount and the default slippage.
     */
    constructor ()
      ensures fromToken == InitialFromToken && toToken == InitialToToken
      ensures fromToken != toToken
      ensures fromChain == InitialChain && toChain == InitialChain
      ensures amount == "" && slippage == DefaultSlippage
      ensures templateName == "" && !showSaveTemplate
    {
      fromToken := InitialFromToken;
      toToken := InitialToToken;
      fromChain := InitialChain;
      toChain := InitialChain;
      amount := "";
      slippage := DefaultSlippage;
      templateName := "";
      showSaveTemplate := false;
    }

    /**
     * `swapTokens`: exchanges the from and to token and the from and to chain;
     * the amount, slippage and dialog state are kept, and so is validity.
     */
    method SwapTokens()
      modifies this
      ensures CurrentRoute() == Reversed(old(CurrentRoute()))
      ensures amount == old(amount) && slippage == old(slippage)
      ensures templateName == old(templateName) && showSaveTemplate == old(showSaveTemplate)
      ensures forall parseFloat: FloatParser ::
        SwapValid(parseFloat, CurrentRoute(), amount) == old(SwapValid(parseFloat, CurrentRoute(), amount))
    {
      fromToken, toToken := toToken, fromToken;
      fromChain, toChain := toChain, fromChain;
    }

    /**
     * `handleSubmit`: the config passed to `onSubmit`, or `None` when nothing
     * is submitted. Identical tokens or an invalid amount always block it; a
     * submitted config carries the form's fields and the slippage.
     */
    function Submission(parseFloat: FloatParser): (c: Option<SwapConfig>)
      reads this
      ensures c.Some? <==> ValidateAmount(parseFloat, amount) && fromToken != toToken
      ensures c.Some? ==> c.value == SwapConfig(fromToken, toToken, fromChain, toChain, amount, slippage)
    {
      if !SwapValid(parseFloat, CurrentRoute(), amount) then None
      else Some(BuildConfig(CurrentRoute(), amount, slippage))
    }

    /**
     * `handleSaveTemplate`: with a name that is not blank and a valid form, hands
     * the (untrimmed) name and the config to `onSaveTemplate`, closes the dialog
     * and clears the name; otherwise does nothing.
     */
    method HandleSaveTemplate(parseFloat: FloatParser) returns (saved: Option<(string, SwapConfig)>)
      modifies this
      ensures saved.Some? <==>
        !IsBlank(old(templateName)) && ValidateAmount(parseFloat, old(amount)) && old(fromToken) != old(toToken)
      ensures saved.Some? ==>
        saved.value == (old(templateName), BuildConfig(old(CurrentRoute()), old(amount), old(slippage)))
      ensures saved.Some? ==> templateName == "" && !showSaveTemplate
      ensures saved.None? ==> templateName == old(templateName) && showSaveTemplate == old(showSaveTemplate)
      ensures CurrentRoute() == old(CurrentRoute()) && amount == old(amount) && slippage == old(slippage)
    {
      if IsBlank(templateName) || !SwapValid(parseFloat, CurrentRoute(), amount) {
        return None;
      }
      saved := Some((templateName, BuildConfig(CurrentRoute(), amount, slippage)));
      showSaveTemplate := false;
      templateName := "";
    }
  }

  /** Exchanging twice restores the form's selection. */
  method SwapTwiceRestores(form: Form)
    modifies form
    ensures form.CurrentRoute() == old(form.CurrentRoute())
  {
    form.SwapTokens();
    form.SwapTokens();
    ReversedTwice(old(form.CurrentRoute()));
  }
}
