/** The token collection (`src/pages/CollectionPage.tsx`): the caller's token transactions, a
    selection of token addresses made with check boxes, and a dialog that sends the selection to
    a recipient. Requests and toasts are recorded as outputs. */
module CollectionPage {
  import opened Wrappers
  import Numbers

  datatype Transaction = Transaction(id: int, validationId: int, tokenAddress: string, timestamp: string,
                                     sender: Option<string>, receiver: Option<string>, status: Option<string>)

  /** `prev.filter(address => address !== x)`: every occurrence of `x` removed, the rest kept in
      order. */
  function Remove(s: seq<string>, x: string): (r: seq<string>)
    ensures x !in r && |r| <= |s|
    ensures forall y :: y != x ==> multiset(r)[y] == multiset(s)[y]
  {
    if s == [] then []
    else
      var rest := Remove(s[1..], x);
      assert s == [s[0]] + s[1..];
      if s[0] == x then rest else [s[0]] + rest
  }

  /** Removing an address that is not selected changes nothing. */
  lemma {:induction false} RemoveAbsent(s: seq<string>, x: string)
    requires x !in s
    ensures Remove(s, x) == s
  {
    if s != [] {
      RemoveAbsent(s[1..], x);
    }
  }

  /** `Remove` distributes over concatenation, so it keeps the order of what it keeps. */
  lemma {:induction false} RemoveAppend(a: seq<string>, b: seq<string>, x: string)
    ensures Remove(a + b, x) == Remove(a, x) + Remove(b, x)
  {
    if a == [] {
      assert a + b == b;
    } else {
      assert (a + b)[1..] == a[1..] + b;
      RemoveAppend(a[1..], b, x);
    }
  }

  /** `handleCheckboxChange`'s update: checking appends the address, unchecking removes every
      occurrence of it. */
  function Toggle(selected: seq<string>, address: string, isChecked: bool): (r: seq<string>)
    ensures (address in r) == isChecked
    ensures forall y :: y != address ==> multiset(r)[y] == multiset(selected)[y]
    ensures isChecked ==> multiset(r)[address] == multiset(selected)[address] + 1
  {
    if isChecked then selected + [address] else Remove(selected, address)
  }

  /** Checking and then unchecking an address leaves the selection as unchecking alone would. */
  lemma CheckThenUncheck(selected: seq<string>, address: string)
    ensures Toggle(Toggle(selected, address, true), address, false) == Remove(selected, address)
  {
    RemoveAppend(selected, [address], address);
    assert Remove([address], address) == [];
  }

  /** A request the page sends: the transaction list, or a transfer of tokens. */
  datatype Request = ListTransactions(token: string)
                   | SendTokens(bearer: Option<string>, recipient: string, tokenAddresses: seq<string>)

  datatype Toast = Toast(title: string, description: string, destructive: bool)

  const MissingInputToast := Toast("Error", "Please enter recipient address and select at least one token.", true)
  const LoadFailedToast := Toast("Error", "Could not load transactions.", true)

  /** How a transfer ended: success, a non-ok response with the `message` of its body when that
      is non-empty, or a thrown error with its message (`""` for none). */
  datatype SendOutcome = Sent | Refused(bodyMessage: Option<string>) | Threw(message: string)

  /** The text the failure toast shows: `error.message || 'Could not send token.'`, where a
      refusal throws `errorData.message || 'Failed to send token'`. */
  function SendFailureText(outcome: SendOutcome): (t: string)
    requires !outcome.Sent?
    ensures t != ""
    ensures outcome.Refused? && outcome.bodyMessage.Some? && outcome.bodyMessage.value != "" ==> t == outcome.bodyMessage.value
  {
    match outcome
    case Refused(bodyMessage) => if bodyMessage.Some? && bodyMessage.value != "" then bodyMessage.value else "Failed to send token"
    case Threw(message) => if message != "" then message else "Could not send token."
  }

  class CollectionPage {
    /** `auth?.token`; it does not change while the page is shown. */
    const token: Option<string>
    var transactions: seq<Transaction>
    var isLoading: bool
    var isSendModalOpen: bool
    var recipientAddress: string
    var selectedTokens: seq<string>
    var requests: seq<Request>
    var toasts: seq<Toast>

    constructor(token: Option<string>)
      ensures this.token == token
      ensures transactions == [] && isLoading && !isSendModalOpen && recipientAddress == ""
      ensures selectedTokens == [] && requests == [] && toasts == []
    {
      this.token := token;
      transactions := [];
      isLoading := true;
      isSendModalOpen := false;
      recipientAddress := "";
      selectedTokens := [];
      requests := [];
      toasts := [];
    }

    predicate HasToken()
      reads this
    {
      token.Some? && token.value != ""
    }

    /** Both send buttons are enabled only while something is selected. */
    function SendEnabled(): (b: bool)
      reads this
      ensures b <==> selectedTokens != []
    {
      |selectedTokens| != 0
    }

    /** The start of `fetchTransactions`: without a token loading simply ends and no request is
        made; otherwise loading starts and the list is requested. */
    method StartFetch()
      modifies this
      ensures !HasToken() ==> !isLoading && requests == old(requests)
      ensures HasToken() ==> isLoading && requests == old(requests) + [ListTransactions(token.value)]
      ensures transactions == old(transactions) && toasts == old(toasts)
      ensures isSendModalOpen == old(isSendModalOpen) && recipientAddress == old(recipientAddress)
      ensures selectedTokens == old(selectedTokens)
    {
      if !HasToken() {
        isLoading := false;
        return;
      }
      isLoading := true;
      requests := requests + [ListTransactions(token.value)];
    }

    /** The end of `fetchTransactions`: the list is stored, or a toast reports the failure and the
        old list stays; loading ends either way. */
    method FinishFetch(outcome: Option<seq<Transaction>>)
      modifies this
      ensures !isLoading
      ensures outcome.Some? ==> transactions == outcome.value && toasts == old(toasts)
      ensures outcome.None? ==> transactions == old(transactions) && toasts == old(toasts) + [LoadFailedToast]
      ensures requests == old(requests) && isSendModalOpen == old(isSendModalOpen)
      ensures recipientAddress == old(recipientAddress) && selectedTokens == old(selectedTokens)
    {
      if outcome.Some? {
        transactions := outcome.value;
      } else {
        toasts := toasts + [LoadFailedToast];
      }
      isLoading := false;
    }

    method HandleCheckboxChange(tokenAddress: string, isChecked: bool)
      modifies this
      ensures selectedTokens == Toggle(old(selectedTokens), tokenAddress, isChecked)
      ensures transactions == old(transactions) && isLoading == old(isLoading) && requests == old(requests)
      ensures isSendModalOpen == old(isSendModalOpen) && recipientAddress == old(recipientAddress)
      ensures toasts == old(toasts)
    {
      selectedTokens := if isChecked then selectedTokens + [tokenAddress] else Remove(selectedTokens, tokenAddress);
    }

    /** The header's send button, which is disabled while nothing is selected. */
    method OpenSendModal()
      requires SendEnabled()
      modifies this
      ensures isSendModalOpen
      ensures transactions == old(transactions) && isLoading == old(isLoading) && requests == old(requests)
      ensures recipientAddress == old(recipientAddress) && selectedTokens == old(selectedTokens)
      ensures toasts == old(toasts)
    {
      isSendModalOpen := true;
    }

    /** The dialog's own open/close control. */
    method SetSendModalOpen(open: bool)
      modifies this
      ensures isSendModalOpen == open
      ensures transactions == old(transactions) && isLoading == old(isLoading) && requests == old(requests)
      ensures recipientAddress == old(recipientAddress) && selectedTokens == old(selectedTokens)
      ensures toasts == old(toasts)
    {
      isSendModalOpen := open;
    }

    method SetRecipientAddress(value: string)
      modifies this
      ensures recipientAddress == value
      ensures transactions == old(transactions) && isLoading == old(isLoading) && requests == old(requests)
      ensures isSendModalOpen == old(isSendModalOpen) && selectedTokens == old(selectedTokens)
      ensures toasts == old(toasts)
    {
      recipientAddress := value;
    }

    /** `handleSendToken`. With no recipient or an empty selection only an error toast appears.
        Otherwise the transfer is requested; on success the dialog closes, recipient and
        selection are cleared and the list is fetched again; on failure only a toast appears. */
    method HandleSendToken(outcome: SendOutcome)
      modifies this
      ensures old(recipientAddress) == "" || old(selectedTokens) == [] ==>
        (requests == old(requests) && toasts == old(toasts) + [MissingInputToast]
         && isSendModalOpen == old(isSendModalOpen) && recipientAddress == old(recipientAddress)
         && selectedTokens == old(selectedTokens) && isLoading == old(isLoading))
      ensures old(recipientAddress) != "" && old(selectedTokens) != [] && outcome.Sent? ==>
        (!isSendModalOpen && recipientAddress == "" && selectedTokens == []
         && toasts == old(toasts) + [Toast("Success", Numbers.NatToString(|old(selectedTokens)|) + " token(s) sent successfully.", false)]
         && requests == old(requests) + [SendTokens(token, old(recipientAddress), old(selectedTokens))]
                        + (if HasToken() then [ListTransactions(token.value)] else [])
         && isLoading == HasToken())
      ensures old(recipientAddress) != "" && old(selectedTokens) != [] && !outcome.Sent? ==>
        (isSendModalOpen == old(isSendModalOpen) && recipientAddress == old(recipientAddress)
         && selectedTokens == old(selectedTokens) && isLoading == old(isLoading)
         && requests == old(requests) + [SendTokens(token, old(recipientAddress), old(selectedTokens))]
         && toasts == old(toasts) + [Toast("Error", SendFailureText(outcome), true)])
      ensures transactions == old(transactions)
    {
      if recipientAddress == "" || |selectedTokens| == 0 {
        toasts := toasts + [MissingInputToast];
        return;
      }
      requests := requests + [SendTokens(token, recipientAddress, selectedTokens)];
      if outcome.Sent? {
        toasts := toasts + [Toast("Success", Numbers.NatToString(|selectedTokens|) + " token(s) sent successfully.", false)];
        isSendModalOpen := false;
        recipientAddress := "";
        selectedTokens := [];
        StartFetch();
      } else {
        toasts := toasts + [Toast("Error", SendFailureText(outcome), true)];
      }
    }
  }
}
