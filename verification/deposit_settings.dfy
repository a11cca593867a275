/** The deposit-settings panel: two independent edit/cancel/save cycles,
    one for the deposit address and one for the minimum deposit amount.
    Editing copies the current value into a temporary one; cancelling
    restores it; saving sends the temporary value and, only once the server
    accepts it, makes it current. */
module DepositSettings {
  import opened Common
  import opened Text
  import opened ApiService

  /** The toast shown when a save fails: a non-empty string body as it is,
      else the body's non-empty `message`, else the given default. */
  function ErrorMessage(body: ErrorBody, default: string): (m: string)
    ensures body.TextBody? && body.text != "" ==> m == body.text
    ensures body.JsonBody? && Truthy(body.message) ==> m == body.message.value
    ensures body.NoBody? || (body.TextBody? && body.text == "") || (body.JsonBody? && !Truthy(body.message)) ==> m == default
  {
    match body
    case TextBody(text) => if text != "" then text else default
    case JsonBody(message, _, _) => if Truthy(message) then message.value else default
    case NoBody => default
  }

  const AddressFailure: string := "Failed to update deposit address"
  const MinAmountFailure: string := "Failed to update minimum amount"

  /** The message is never empty: every path ends in a non-empty text. */
  lemma ErrorMessageNeverEmpty(body: ErrorBody)
    ensures ErrorMessage(body, AddressFailure) != "" && ErrorMessage(body, MinAmountFailure) != ""
  {
  }

  /** Whether a parsed minimum amount may be sent: a number above zero
      (None is NaN). */
  predicate ValidMinAmount(parsed: Option<real>) {
    parsed.Some? && parsed.value > 0.0
  }

  class DepositSettingsPanel {
    var depositAddress: string
    var minAmount: string
    var isEditingAddress: bool
    var isEditingMinAmount: bool
    var tempAddress: string
    var tempMinAmount: string
    var loading: bool

    constructor()
      ensures depositAddress == "" && minAmount == "" && !isEditingAddress && !isEditingMinAmount
      ensures tempAddress == "" && tempMinAmount == "" && !loading
    {
      depositAddress := "";
      minAmount := "";
      isEditingAddress := false;
      isEditingMinAmount := false;
      tempAddress := "";
      tempMinAmount := "";
      loading := false;
    }

    /** The amount cycle's part of the state. */
    function AmountState(): (string, string, bool)
      reads this
    {
      (minAmount, tempMinAmount, isEditingMinAmount)
    }

    /** The address cycle's part of the state. */
    function AddressState(): (string, string, bool)
      reads this
    {
      (depositAddress, tempAddress, isEditingAddress)
    }

    /** `fetchDepositSettings`: both values arrive together or neither is
        set. */
    method FetchDone(outcome: Outcome<(string, string)>)
      modifies this
      ensures outcome.Success? ==> depositAddress == outcome.data.0 && minAmount == outcome.data.1
      ensures outcome.Failure? ==> depositAddress == old(depositAddress) && minAmount == old(minAmount)
      ensures !loading && tempAddress == old(tempAddress) && tempMinAmount == old(tempMinAmount)
      ensures isEditingAddress == old(isEditingAddress) && isEditingMinAmount == old(isEditingMinAmount)
    {
      if outcome.Success? {
        depositAddress := outcome.data.0;
        minAmount := outcome.data.1;
      }
      loading := false;
    }

    method EditAddress()
      modifies this
      ensures tempAddress == depositAddress && isEditingAddress
      ensures depositAddress == old(depositAddress) && AmountState() == old(AmountState()) && loading == old(loading)
    {
      tempAddress := depositAddress;
      isEditingAddress := true;
    }

    method CancelAddressEdit()
      modifies this
      ensures !isEditingAddress && tempAddress == depositAddress
      ensures depositAddress == old(depositAddress) && AmountState() == old(AmountState()) && loading == old(loading)
    {
      isEditingAddress := false;
      tempAddress := depositAddress;
    }

    method TypeAddress(text: string)
      modifies this
      ensures tempAddress == text
      ensures depositAddress == old(depositAddress) && isEditingAddress == old(isEditingAddress)
      ensures AmountState() == old(AmountState()) && loading == old(loading)
    {
      tempAddress := text;
    }

    /** `handleSaveAddress`: a blank address is refused without a call; on
        success the typed address (untrimmed) becomes current and editing
        ends; on failure the current address stays, editing goes on and the
        error message is reported. */
    method SaveAddress(outcome: Outcome<()>) returns (call: Option<Request>, error: Option<string>)
      modifies this
      ensures IsBlank(old(tempAddress)) ==> (call == None && error == None
                                           && AddressState() == old(AddressState()) && loading == old(loading))
      ensures !IsBlank(old(tempAddress)) ==> call == Some(Plain(UpdateDepositAddress(old(tempAddress)))) && !loading
      ensures !IsBlank(old(tempAddress)) && outcome.Success? ==>
        depositAddress == old(tempAddress) && !isEditingAddress && error == None
      ensures !IsBlank(old(tempAddress)) && outcome.Failure? ==>
        AddressState() == old(AddressState()) && error == Some(ErrorMessage(outcome.err.body, AddressFailure))
      ensures tempAddress == old(tempAddress) && AmountState() == old(AmountState())
    {
      var text := tempAddress;
      if IsBlank(text) {
        call := None;
        error := None;
      } else {
        call := Some(Plain(UpdateDepositAddress(text)));
        error := SaveAddressDone(outcome);
      }
    }

    method SaveAddressDone(outcome: Outcome<()>) returns (error: Option<string>)
      modifies this
      ensures outcome.Success? ==> depositAddress == old(tempAddress) && !isEditingAddress && error == None
      ensures outcome.Failure? ==> AddressState() == old(AddressState())
                                   && error == Some(ErrorMessage(outcome.err.body, AddressFailure))
      ensures !loading && tempAddress == old(tempAddress) && AmountState() == old(AmountState())
    {
      if outcome.Success? {
        depositAddress := tempAddress;
        isEditingAddress := false;
        error := None;
      } else {
        error := Some(ErrorMessage(outcome.err.body, AddressFailure));
      }
      loading := false;
    }

    method EditMinAmount()
      modifies this
      ensures tempMinAmount == minAmount && isEditingMinAmount
      ensures minAmount == old(minAmount) && AddressState() == old(AddressState()) && loading == old(loading)
    {
      tempMinAmount := minAmount;
      isEditingMinAmount := true;
    }

    method CancelMinAmountEdit()
      modifies this
      ensures !isEditingMinAmount && tempMinAmount == minAmount
      ensures minAmount == old(minAmount) && AddressState() == old(AddressState()) && loading == old(loading)
    {
      isEditingMinAmount := false;
      tempMinAmount := minAmount;
    }

    method TypeMinAmount(text: string)
      modifies this
      ensures tempMinAmount == text
      ensures minAmount == old(minAmount) && isEditingMinAmount == old(isEditingMinAmount)
      ensures AddressState() == old(AddressState()) && loading == old(loading)
    {
      tempMinAmount := text;
    }

    /** `handleSaveMinAmount`, with `parsed` the result of parsing the typed
        text (None for NaN): NaN or a value not above zero is refused
        without a call; the parsed number is sent; on success the typed
        text becomes current and editing ends; on failure nothing but the
        reported message changes. */
    method SaveMinAmount(parsed: Option<real>, outcome: Outcome<()>) returns (call: Option<Request>, error: Option<string>)
      modifies this
      ensures !ValidMinAmount(parsed) ==> (call == None && error == None
                                          && AmountState() == old(AmountState()) && loading == old(loading))
      ensures ValidMinAmount(parsed) ==> call == Some(Plain(UpdateMinDepositAmount(parsed.value))) && !loading
      ensures ValidMinAmount(parsed) && outcome.Success? ==>
        minAmount == old(tempMinAmount) && !isEditingMinAmount && error == None
      ensures ValidMinAmount(parsed) && outcome.Failure? ==>
        AmountState() == old(AmountState()) && error == Some(ErrorMessage(outcome.err.body, MinAmountFailure))
      ensures tempMinAmount == old(tempMinAmount) && AddressState() == old(AddressState())
    {
      if !ValidMinAmount(parsed) {
        call := None;
        error := None;
        return;
      }
      call := Some(Plain(UpdateMinDepositAmount(parsed.value)));
      if outcome.Success? {
        minAmount := tempMinAmount;
        isEditingMinAmount := false;
        error := None;
      } else {
        error := Some(ErrorMessage(outcome.err.body, MinAmountFailure));
      }
      loading := false;
    }
  }

  /** Edit followed by cancel leaves the current address as it was and the
      temporary copy equal to it, whatever was typed in between. */
  method EditTypeCancelRestores(panel: DepositSettingsPanel, typed: string)
    modifies panel
    ensures panel.depositAddress == old(panel.depositAddress) && panel.tempAddress == panel.depositAddress
    ensures !panel.isEditingAddress && panel.AmountState() == old(panel.AmountState())
  {
    panel.EditAddress();
    panel.TypeAddress(typed);
    panel.CancelAddressEdit();
  }
}
