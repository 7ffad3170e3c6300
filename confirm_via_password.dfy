/**
 * The `ConfirmViaPassword` component: it holds the password the user types,
 * confirms a pending request through the signer, and derives what its form shows
 * (the password field, the account's password hint and the confirm button).
 */
module ConfirmViaPassword {
  import opened Js
  import opened Lodash
  import opened SignerApi

  type Address = string

  /** An account's `meta` record; only the password hint is read. */
  datatype Meta = Meta(passwordHint: Option<string>)

  /** One entry of `allAccountsInfo`; `meta` may be missing. */
  datatype AccountInfo = AccountInfo(meta: Option<Meta>)

  /** The pending request: its id and whether it is already being sent. */
  datatype Request = Request(id: RequestId, isSending: bool)

  /**
   * The component's props. An omitted `isDisabled` is falsy, so it is `false` here;
   * `dataSigned` and `transaction` may be `null` / `undefined`.
   */
  datatype Props = Props(
    address: Address,
    dataSigned: Option<string>,
    isDisabled: bool,
    request: Request,
    transaction: Option<map<string, Value>>)

  /** The transaction fields passed to `confirmRequest`, exactly as the code lists them. */
  const SourceSubsetKeys: seq<string> := ["condition", "gas", "gasPrice,"]

  /** The list the code evidently means: `gasPrice` without the stray comma. */
  const IntendedSubsetKeys: seq<string> := ["condition", "gas", "gasPrice"]

  // ---------------------------------------------------------------------------
  // Confirmation

  /** The one signer call `handleConfirm` makes for these props and this password. */
  function ConfirmCall(props: Props, password: string): (c: SignerCall)
    ensures c.id == props.request.id
    ensures c.Raw? <==> Truthy(props.dataSigned)
  {
    if Truthy(props.dataSigned) then
      Raw(props.request.id, props.dataSigned.value)
    else
      Password(props.request.id, Pick(props.transaction, SourceSubsetKeys), password)
  }

  /** With signed data present, the raw path carries it verbatim and the password is never used. */
  lemma RawPathIgnoresPassword(props: Props, password1: string, password2: string)
    requires Truthy(props.dataSigned)
    ensures ConfirmCall(props, password1) == Raw(props.request.id, props.dataSigned.value)
    ensures ConfirmCall(props, password1) == ConfirmCall(props, password2)
  {
  }

  /**
   * Without signed data (missing or the empty string), the password path carries the
   * password verbatim and the as-written subset of the transaction: every entry is a
   * `condition`, `gas` or (literally) `gasPrice,` field copied from the transaction, and
   * every such field is there.
   */
  lemma PasswordPathCall(props: Props, password: string)
    requires !Truthy(props.dataSigned)
    ensures var c := ConfirmCall(props, password);
      && c.Password?
      && c.password == password
      && c.subset == Pick(props.transaction, SourceSubsetKeys)
      && (forall k :: k in c.subset <==>
            props.transaction.Some? && k in props.transaction.value && (k == "condition" || k == "gas" || k == "gasPrice,"))
      && (forall k :: k in c.subset ==> c.subset[k] == props.transaction.value[k])
  {
  }

  /** As written, the subset never carries `gasPrice` nor any unlisted field such as `extra`. */
  lemma SourceSubsetOmitsGasPrice(transaction: Option<map<string, Value>>)
    ensures "gasPrice" !in Pick(transaction, SourceSubsetKeys)
    ensures "extra" !in Pick(transaction, SourceSubsetKeys)
  {
  }

  /**
   * As written, the transaction `{gas: 21000, gasPrice: 5, condition: null, extra: "x"}`
   * is narrowed to `{condition: null, gas: 21000}`: the gas price is dropped.
   */
  lemma SourceSubsetDropsGasPrice()
    ensures Pick(Some(map["gas" := Num(21000), "gasPrice" := Num(5), "condition" := Null, "extra" := Str("x")]),
                 SourceSubsetKeys)
         == map["condition" := Null, "gas" := Num(21000)]
  {
  }

  /** With the intended list, the subset is exactly the transaction's `condition`, `gas` and `gasPrice`. */
  lemma IntendedSubsetIsExact(transaction: map<string, Value>)
    ensures Pick(Some(transaction), IntendedSubsetKeys) == Restrict(transaction, {"condition", "gas", "gasPrice"})
    ensures Pick(Some(map["gas" := Num(21000), "gasPrice" := Num(5), "condition" := Null, "extra" := Str("x")]),
                 IntendedSubsetKeys)
         == map["condition" := Null, "gas" := Num(21000), "gasPrice" := Num(5)]
  {
  }

  // ---------------------------------------------------------------------------
  // Password hint

  /**
   * `(account && account.meta && account.meta.passwordHint) || null`, where
   * `account` is `allAccountsInfo[address]`.
   */
  function HintLookup(allAccountsInfo: map<Address, AccountInfo>, address: Address): (hint: Option<string>)
  {
    var chain :=
      if address !in allAccountsInfo then None
      else match allAccountsInfo[address].meta
        case None => None
        case Some(meta) => meta.passwordHint;
    Or(chain, None)
  }

  /**
   * `renderHint`: the hint shown under the password field, if any. It is shown
   * exactly when the account exists, has `meta`, and its hint is a non-empty string.
   */
  function RenderHint(allAccountsInfo: map<Address, AccountInfo>, address: Address): (shown: Option<string>)
    ensures shown.Some? <==>
      && address in allAccountsInfo
      && allAccountsInfo[address].meta.Some?
      && Truthy(allAccountsInfo[address].meta.value.passwordHint)
    ensures shown.Some? ==> shown == allAccountsInfo[address].meta.value.passwordHint
  {
    var passwordHint := HintLookup(allAccountsInfo, address);
    if !Truthy(passwordHint) then None else passwordHint
  }

  // ---------------------------------------------------------------------------
  // Confirm button

  /** The button's caption: "Confirming..." or "Confirm Request". */
  datatype ButtonLabel = ConfirmBusy | ConfirmRequest

  datatype ConfirmButton = ConfirmButton(caption: ButtonLabel, disabled: bool)

  /** The confirm button of `render`, from the `isDisabled` prop and `request.isSending`. */
  function RenderButton(isDisabled: bool, isSending: bool): (b: ConfirmButton)
    ensures b.disabled <==> isDisabled || isSending
    ensures b.caption == ConfirmBusy <==> isSending
  {
    ConfirmButton(if isSending then ConfirmBusy else ConfirmRequest, isDisabled || isSending)
  }

  /** The busy caption never appears on a button that can be clicked. */
  lemma BusyButtonIsDisabled(isDisabled: bool, isSending: bool)
    ensures RenderButton(isDisabled, isSending).caption == ConfirmBusy ==> RenderButton(isDisabled, isSending).disabled
  {
  }

  // ---------------------------------------------------------------------------
  // The component

  /** What `render` shows: the password field's value, the hint and the confirm button. */
  datatype View = View(passwordValue: string, hint: Option<string>, button: ConfirmButton)

  class ConfirmViaPassword {
    /** `state.password`: what the user has typed so far. */
    var password: string

    /** The signer reached through `api.signer`. */
    const signer: Signer

    /** A freshly mounted component: the password starts empty. */
    constructor (signer: Signer)
      ensures password == ""
      ensures this.signer == signer
    {
      password := "";
      this.signer := signer;
    }

    /** `handleChange`: the typed value replaces the password verbatim. */
    method HandleChange(value: string)
      modifies this
      ensures password == value
      ensures unchanged(signer)
    {
      password := value;
    }

    /** `handleConfirm`: exactly one signer call is appended, the password is kept. */
    method HandleConfirm(props: Props)
      modifies signer
      ensures signer.calls == old(signer.calls) + [ConfirmCall(props, old(password))]
      ensures password == old(password)
    {
      if Truthy(props.dataSigned) {
        signer.ConfirmRequestRaw(props.request.id, props.dataSigned.value);
      } else {
        signer.ConfirmRequest(props.request.id, Pick(props.transaction, SourceSubsetKeys), password);
      }
    }

    /** `render`, given the props and the accounts store. */
    function Render(props: Props, allAccountsInfo: map<Address, AccountInfo>): (v: View)
      reads this
      ensures v.passwordValue == password
      ensures v.hint == RenderHint(allAccountsInfo, props.address)
      ensures v.button.disabled <==> props.isDisabled || props.request.isSending
      ensures v.button.caption == ConfirmBusy <==> props.request.isSending
    {
      View(password, RenderHint(allAccountsInfo, props.address), RenderButton(props.isDisabled, props.request.isSending))
    }
  }

  /**
   * Typing "pw" and confirming request "R1" with the transaction
   * `{gas: 21000, gasPrice: 5, condition: null, extra: "x"}` and no signed data
   * makes one password call with the as-written subset; the field keeps showing "pw".
   */
  method TypeAndConfirmScenario() returns (calls: seq<SignerCall>, shown: string)
    ensures calls == [Password("R1", map["condition" := Null, "gas" := Num(21000)], "pw")]
    ensures shown == "pw"
  {
    var signer := new Signer();
    var form := new ConfirmViaPassword(signer);
    form.HandleChange("pw");
    var t := map["gas" := Num(21000), "gasPrice" := Num(5), "condition" := Null, "extra" := Str("x")];
    var props := Props("0xabc", None, false, Request("R1", false), Some(t));
    form.HandleConfirm(props);
    SourceSubsetDropsGasPrice();
    calls := signer.calls;
    shown := form.Render(props, map[]).passwordValue;
  }
}
