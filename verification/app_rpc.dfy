/** Two handlers of packages/launcher/src/main/rpc/app.js: the account
    reordering of `wallet_getEthAccounts` and the checks and request
    building of `contacts_select`. */
module AppRpc {
  import opened Js
  import opened Contacts

  /** The position of the first occurrence of `x` in `s`. */
  function IndexOf(s: seq<string>, x: string): (r: nat)
    requires x in s
    ensures r < |s| && s[r] == x
    ensures forall k :: 0 <= k < r ==> s[k] != x
  {
    if s[0] == x then 0 else 1 + IndexOf(s[1..], x)
  }

  /** The accounts with the default moved to the front: its first
      occurrence is taken out and put first, when the default is a
      non-empty string the list holds; otherwise the list as it was. */
  function DefaultFirst(accounts: seq<string>, defaultEthAccount: Option<string>): seq<string> {
    if Present(defaultEthAccount) && defaultEthAccount.value in accounts then
      var i := IndexOf(accounts, defaultEthAccount.value);
      [defaultEthAccount.value] + accounts[..i] + accounts[i + 1..]
    else accounts
  }

  /** The reordering in `wallet_getEthAccounts`, in place. */
  method WalletGetEthAccounts(accounts: array<string>, defaultEthAccount: Option<string>)
    modifies accounts
    ensures accounts[..] == DefaultFirst(old(accounts[..]), defaultEthAccount)
  {
    if !Present(defaultEthAccount) {
      return;
    }
    var d := defaultEthAccount.value;
    var i := 0;
    while i < accounts.Length && accounts[i] != d
      invariant 0 <= i <= accounts.Length
      invariant forall k :: 0 <= k < i ==> accounts[k] != d
    {
      i := i + 1;
    }
    if i == accounts.Length {
      return;
    }
    assert IndexOf(accounts[..], d) == i by {
      var j := IndexOf(accounts[..], d);
      assert !(j < i) && !(i < j);
    }
    MoveToFront(accounts, i);
  }

  /** `splice(i, 1)` followed by `unshift`: the element at `i` goes first,
      the ones before it move one place down. */
  method MoveToFront(a: array<string>, i: nat)
    requires i < a.Length
    modifies a
    ensures a[..] == [old(a[i])] + old(a[..i]) + old(a[i + 1..])
  {
    ghost var s := a[..];
    var x := a[i];
    var j := i;
    while j > 0
      invariant 0 <= j <= i
      invariant forall k :: 0 <= k < j ==> a[k] == s[k]
      invariant forall k :: j < k <= i ==> a[k] == s[k - 1]
      invariant forall k :: i < k < a.Length ==> a[k] == s[k]
    {
      a[j] := a[j - 1];
      j := j - 1;
    }
    a[0] := x;
    assert a[..] == [x] + s[..i] + s[i + 1..] by {
      forall k | 0 <= k < a.Length
        ensures a[..][k] == ([x] + s[..i] + s[i + 1..])[k]
      {
        if k == 0 {
        } else if k <= i {
          assert ([x] + s[..i] + s[i + 1..])[k] == s[k - 1];
        } else {
          assert ([x] + s[..i] + s[i + 1..])[k] == s[k];
        }
      }
    }
  }

  /** With a default present in the list, it comes first, nothing is lost
      or added, and the length is kept. */
  lemma DefaultFirstPermutes(accounts: seq<string>, defaultEthAccount: Option<string>)
    ensures var r := DefaultFirst(accounts, defaultEthAccount);
      && |r| == |accounts|
      && multiset(r) == multiset(accounts)
      && (Present(defaultEthAccount) && defaultEthAccount.value in accounts ==> r[0] == defaultEthAccount.value)
  {
    if Present(defaultEthAccount) && defaultEthAccount.value in accounts {
      var i := IndexOf(accounts, defaultEthAccount.value);
      assert accounts == accounts[..i] + [accounts[i]] + accounts[i + 1..];
    }
  }

  /** The accounts other than the moved one keep their positions relative
      to each other: those before it move one place down, those after it
      stay where they were. */
  lemma DefaultFirstKeepsOrder(accounts: seq<string>, d: string, i: nat)
    requires d != "" && d in accounts && i == IndexOf(accounts, d)
    ensures forall k :: 0 <= k < i ==> DefaultFirst(accounts, Some(d))[k + 1] == accounts[k]
    ensures forall k :: i < k < |accounts| ==> DefaultFirst(accounts, Some(d))[k] == accounts[k]
  {
    var r := DefaultFirst(accounts, Some(d));
    var front, back := accounts[..i], accounts[i + 1..];
    assert r == [d] + front + back;
    forall k | 0 <= k < i
      ensures r[k + 1] == accounts[k]
    {
      assert r[k + 1] == front[k];
    }
    forall k | i < k < |accounts|
      ensures r[k] == accounts[k]
    {
      assert r[k] == back[k - i - 1];
    }
  }

  /** Moving the default first twice is moving it first once. */
  lemma {:induction false} DefaultFirstIdempotent(accounts: seq<string>, defaultEthAccount: Option<string>)
    ensures DefaultFirst(DefaultFirst(accounts, defaultEthAccount), defaultEthAccount) == DefaultFirst(accounts, defaultEthAccount)
  {
    if Present(defaultEthAccount) && defaultEthAccount.value in accounts {
      var r := DefaultFirst(accounts, defaultEthAccount);
      assert r[0] == defaultEthAccount.value;
      assert IndexOf(r, defaultEthAccount.value) == 0;
      assert r[..0] + r[1..] == r[1..];
    }
  }

  // ---------------------------------------------------------------------
  // contacts_select

  /** One contact to approve for the app. */
  datatype ContactApproval = ContactApproval(localID: JsValue, publicDataOnly: bool)

  /** Where the handler goes after the user's answer: back with
      `{contacts: []}`, or on to approve these contacts. */
  datatype Selection = NoContacts | Approve(contacts: seq<ContactApproval>)

  /** The approvals for the selected ids, public data only. */
  function Approvals(ids: seq<JsValue>): (r: seq<ContactApproval>)
    ensures |r| == |ids|
    ensures forall i :: 0 <= i < |ids| ==> r[i] == ContactApproval(ids[i], true)
  {
    seq(|ids|, i requires 0 <= i < |ids| => ContactApproval(ids[i], true))
  }

  /** Whether the answer carries a selection. */
  predicate HasSelection(res: JsValue) {
    && Truthy(res)
    && Truthy(Prop(res, "granted"))
    && Truthy(Prop(res, "data"))
    && Truthy(Prop(Prop(res, "data"), "selectedContactIDs"))
  }

  /** The handler's checks, testing the answer itself before its fields. */
  function ContactsSelect(res: JsValue): (r: Result<Selection, JsError>)
    ensures !HasSelection(res) <==> r == Success(NoContacts)
    ensures HasSelection(res) ==>
      var ids := Prop(Prop(res, "data"), "selectedContactIDs");
      (r.Success? <==> ids.Arr?) && (r.Success? ==> r.value == Approve(Approvals(ids.items)))
    ensures r.Failure? ==> r.error == TypeError
  {
    if !HasSelection(res) then Success(NoContacts)
    else
      var ids := Prop(Prop(res, "data"), "selectedContactIDs");
      if ids.Arr? then Success(Approve(Approvals(ids.items))) else Failure(TypeError)
  }

  /** The checks as written, reading `res.granted` before testing `res`. */
  function ContactsSelectAsWritten(res: JsValue): Result<Selection, JsError> {
    var granted :- GetProp(res, "granted");
    ContactsSelect(res)
  }

  /** The two agree except on a missing answer, which the written checks
      turn into a TypeError instead of an empty selection. */
  lemma ContactsSelectAsWrittenDiffers(res: JsValue)
    ensures !Nullish(res) ==> ContactsSelectAsWritten(res) == ContactsSelect(res)
    ensures Nullish(res) ==> ContactsSelectAsWritten(res) == Failure(TypeError) && ContactsSelect(res) == Success(NoContacts)
  {
  }
}
