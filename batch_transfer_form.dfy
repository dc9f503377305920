/**
 * The batch transfer form (components/features/BatchTransferForm.tsx): an
 * editable list of recipients, its validation, and the config it submits or
 * saves as a template. Fresh recipient ids (`generateId()`) are parameters.
 */
module BatchTransferForm {
  import opened Types
  import opened Seqs
  import opened JsString
  import opened Utils

  /** `SUPPORTED_TOKENS[0].symbol`, the token selected at first. */
  const InitialToken := "ETH"

  /** The Add button is disabled once the list holds this many recipients. */
  const MaxRecipients := 50

  /** One row of the form; `labelText` is the label input. */
  datatype Recipient = Recipient(id: string, address: string, amount: string, labelText: string)

  /** The fields the form's inputs edit through `updateRecipient`. */
  datatype Field = AddressField | AmountField | LabelField

  function FieldOf(r: Recipient, field: Field): string {
    match field
    case AddressField => r.address
    case AmountField => r.amount
    case LabelField => r.labelText
  }

  /** `{ ...r, [field]: value }`: the field now reads `value`; the id and the other fields are kept. */
  function WithField(r: Recipient, field: Field, value: string): (r': Recipient)
    ensures FieldOf(r', field) == value
    ensures r'.id == r.id
    ensures forall other: Field | other != field :: FieldOf(r', other) == FieldOf(r, other)
  {
    match field
    case AddressField => r.(address := value)
    case AmountField => r.(amount := value)
    case LabelField => r.(labelText := value)
  }

  function Ids(rs: seq<Recipient>): set<string> {
    set r | r in rs :: r.id
  }

  predicate DistinctIds(rs: seq<Recipient>) {
    forall i, j | 0 <= i < j < |rs| :: rs[i].id != rs[j].id
  }

  /**
   * `recipients.map(r => r.id === id ? { ...r, [field]: value } : r)`: the same
   * length, the recipients with that id get the new field value, every other
   * recipient is unchanged.
   */
  function UpdateById(rs: seq<Recipient>, id: string, field: Field, value: string): (r: seq<Recipient>)
    ensures |r| == |rs|
    ensures forall i | 0 <= i < |rs| ::
      r[i] == if rs[i].id == id then WithField(rs[i], field, value) else rs[i]
  {
    if rs == [] then []
    else
      var head := if rs[0].id == id then WithField(rs[0], field, value) else rs[0];
      [head] + UpdateById(rs[1..], id, field, value)
  }

  /** `recipients.filter(r => r.id !== id)`. */
  function WithoutRecipient(rs: seq<Recipient>, id: string): (r: seq<Recipient>)
    ensures IsSubsequence(r, rs)
    ensures forall x {:trigger x in r} :: x in r <==> x in rs && x.id != id
    ensures forall x {:trigger multiset(r)[x]} :: multiset(r)[x] == if x.id != id then multiset(rs)[x] else 0
  {
    Filter(rs, (x: Recipient) => x.id != id)
  }

  /**
   * With distinct ids, removing an id drops exactly one recipient when it is
   * present and none when it is absent, and the ids stay distinct.
   */
  lemma {:induction false} RemoveDistinct(rs: seq<Recipient>, id: string)
    requires DistinctIds(rs)
    ensures |WithoutRecipient(rs, id)| == if id in Ids(rs) then |rs| - 1 else |rs|
    ensures DistinctIds(WithoutRecipient(rs, id))
    decreases |rs|
  {
    if rs != [] {
      var tail := rs[1..];
      assert DistinctIds(tail) by {
        forall i, j | 0 <= i < j < |tail| ensures tail[i].id != tail[j].id {
          assert tail[i] == rs[i + 1] && tail[j] == rs[j + 1];
        }
      }
      RemoveDistinct(tail, id);
      assert Ids(rs) == {rs[0].id} + Ids(tail) by {
        assert forall x :: x in rs <==> x == rs[0] || x in tail;
      }
      assert rs[0].id !in Ids(tail) by {
        forall x | x in tail ensures x.id != rs[0].id {
          var j :| 0 <= j < |tail| && tail[j] == x;
          assert rs[j + 1] == x;
        }
      }
      var rest := WithoutRecipient(tail, id);
      if rs[0].id != id {
        assert WithoutRecipient(rs, id) == [rs[0]] + rest;
        forall i, j | 0 <= i < j < |[rs[0]] + rest|
          ensures ([rs[0]] + rest)[i].id != ([rs[0]] + rest)[j].id
        {
          if i == 0 {
            assert ([rs[0]] + rest)[j] == rest[j - 1] && rest[j - 1] in rest;
          } else {
            assert ([rs[0]] + rest)[i] == rest[i - 1] && ([rs[0]] + rest)[j] == rest[j - 1];
          }
        }
      } else {
        assert id !in Ids(tail);
        assert WithoutRecipient(rs, id) == rest;
      }
    }
  }

  /** `recipients.every(r => validateAddress(r.address) && validateAmount(r.amount))`. */
  function AllValid(parseFloat: FloatParser, rs: seq<Recipient>): (r: bool)
    ensures r <==> forall i | 0 <= i < |rs| ::
      ValidateAddress(rs[i].address) && ValidateAmount(parseFloat, rs[i].amount)
  {
    if rs == [] then true
    else ValidateAddress(rs[0].address) && ValidateAmount(parseFloat, rs[0].amount)
         && AllValid(parseFloat, rs[1..])
  }

  /** The config entry for one row: address, amount and label are copied, the id is dropped. */
  function SpecOf(r: Recipient): RecipientSpec {
    RecipientSpec(r.address, r.amount, Some(r.labelText))
  }

  /** `recipients.map(r => ({ address, amount, label }))`, in the same order. */
  function Specs(rs: seq<Recipient>): (specs: seq<RecipientSpec>)
    ensures |specs| == |rs|
    ensures forall i | 0 <= i < |rs| ::
      specs[i].address == rs[i].address && specs[i].amount == rs[i].amount
      && specs[i].labelText == Some(rs[i].labelText)
  {
    if rs == [] then [] else [SpecOf(rs[0])] + Specs(rs[1..])
  }

  function BuildConfig(token: string, rs: seq<Recipient>): (c: TransferConfig)
    ensures c.token == token && c.recipients == Specs(rs)
  {
    TransferConfig(token, Specs(rs))
  }

  /** Every recipient of a config has a valid address and a valid amount. */
  predicate ConfigValid(parseFloat: FloatParser, c: TransferConfig) {
    forall i | 0 <= i < |c.recipients| ::
      ValidateAddress(c.recipients[i].address) && ValidateAmount(parseFloat, c.recipients[i].amount)
  }

  class Form {
    var selectedToken: string
    var recipients: seq<Recipient>
    var templateName: string
    var showSaveTemplate: bool

    /** Between one and fifty recipients, with distinct ids. */
    predicate Valid()
      reads this
    {
      1 <= |recipients| <= MaxRecipients && DistinctIds(recipients)
    }

    /** The form as first shown: the first token and one empty recipient. */
    constructor (firstId: string)
      ensures Valid()
      ensures selectedToken == InitialToken
      ensures recipients == [Recipient(firstId, "", "", "")]
      ensures templateName == "" && !showSaveTemplate
    {
      selectedToken := InitialToken;
      recipients := [Recipient(firstId, "", "", "")];
      templateName := "";
      showSaveTemplate := false;
    }

    /**
     * `addRecipient`: appends one empty recipient with a fresh id. Its only
     * caller, the Add button, is disabled at fifty recipients.
     */
    method AddRecipient(newId: string)
      requires Valid()
      requires |recipients| < MaxRecipients
      requires newId !in Ids(recipients)
      modifies this
      ensures Valid()
      ensures recipients == old(recipients) + [Recipient(newId, "", "", "")]
      ensures selectedToken == old(selectedToken) && templateName == old(templateName)
      ensures showSaveTemplate == old(showSaveTemplate)
    {
      recipients := recipients + [Recipient(newId, "", "", "")];
      forall i, j | 0 <= i < j < |recipients| ensures recipients[i].id != recipients[j].id {
        if j == |recipients| - 1 {
          assert recipients[i] in old(recipients);
        }
      }
    }

    /**
     * `removeRecipient`: a no-op while one recipient remains; otherwise the
     * recipient with that id is dropped and the others keep their order.
     */
    method RemoveRecipient(id: string)
      requires Valid()
      modifies this
      ensures Valid()
      ensures recipients == if |old(recipients)| > 1 then WithoutRecipient(old(recipients), id)
                            else old(recipients)
      ensures |recipients| == if |old(recipients)| > 1 && id in Ids(old(recipients))
                              then |old(recipients)| - 1 else |old(recipients)|
      ensures selectedToken == old(selectedToken) && templateName == old(templateName)
      ensures showSaveTemplate == old(showSaveTemplate)
    {
      if |recipients| > 1 {
        RemoveDistinct(recipients, id);
        recipients := WithoutRecipient(recipients, id);
      }
    }

    /** `updateRecipient`: sets one field of the recipient with that id; nothing else changes. */
    method UpdateRecipient(id: string, field: Field, value: string)
      requires Valid()
      modifies this
      ensures Valid()
      ensures recipients == UpdateById(old(recipients), id, field, value)
      ensures selectedToken == old(selectedToken) && templateName == old(templateName)
      ensures showSaveTemplate == old(showSaveTemplate)
    {
      recipients := UpdateById(recipients, id, field, value);
    }

    /**
     * `handleSubmit`: the config passed to `onSubmit`, or `None` when the form
     * is not valid and nothing is submitted. A submitted config has the
     * selected token, one to fifty recipients, and only valid ones.
     */
    function Submission(parseFloat: FloatParser): (c: Option<TransferConfig>)
      reads this
      requires Valid()
      ensures c.Some? <==> AllValid(parseFloat, recipients)
      ensures c.Some? ==> c.value == BuildConfig(selectedToken, recipients)
      ensures c.Some? ==> 1 <= |c.value.recipients| <= MaxRecipients && ConfigValid(parseFloat, c.value)
    {
      if !AllValid(parseFloat, recipients) then None
      else Some(BuildConfig(selectedToken, recipients))
    }

    /**
     * `handleSaveTemplate`: with a name that is not blank and a valid form, hands
     * the (untrimmed) name and the config to `onSaveTemplate`, closes the dialog
     * and clears the name; otherwise does nothing.
     */
    method HandleSaveTemplate(parseFloat: FloatParser) returns (saved: Option<(string, TransferConfig)>)
      requires Valid()
      modifies this
      ensures Valid()
      ensures saved.Some? <==> !IsBlank(old(templateName)) && AllValid(parseFloat, old(recipients))
      ensures saved.Some? ==> saved.value == (old(templateName), BuildConfig(old(selectedToken), old(recipients)))
      ensures saved.Some? ==> templateName == "" && !showSaveTemplate
      ensures saved.None? ==> templateName == old(templateName) && showSaveTemplate == old(showSaveTemplate)
      ensures recipients == old(recipients) && selectedToken == old(selectedToken)
    {
      if IsBlank(templateName) || !AllValid(parseFloat, recipients) {
        return None;
      }
      saved := Some((templateName, BuildConfig(selectedToken, recipients)));
      showSaveTemplate := false;
      templateName := "";
    }
  }
}
