/**
 * The account page: the avatar initials, the order count and amount spent,
 * editing the display name, and signing out.
 */
module AccountPage {
  import opened Options
  import opened Text
  import opened Seqs
  import opened Auth
  import opened Orders
  import opened Shell

  const NameEmpty := "Name cannot be empty."

  datatype PageTab = OrdersTab | ProfileTab

  /**
   * The first character of each word, in order. `w[0]` of an empty word
   * is undefined, which `join('')` writes as nothing, so empty words
   * contribute nothing.
   */
  function FirstChars(ws: seq<string>): (r: string)
    ensures |r| <= |ws|
  {
    if ws == [] then []
    else (if ws[0] == [] then [] else [ws[0][0]]) + FirstChars(ws[1..])
  }

  /**
   * The characters of `s` that begin a word: those other than a space
   * that come first or right after a space. `atStart` says whether the
   * position before `s` counts as a word boundary.
   */
  function StartsFrom(s: string, atStart: bool): (r: string)
    ensures forall i :: 0 <= i < |r| ==> r[i] != ' '
  {
    if s == [] then []
    else if s[0] == ' ' then StartsFrom(s[1..], true)
    else (if atStart then [s[0]] else []) + StartsFrom(s[1..], false)
  }

  function WordStarts(s: string): string {
    StartsFrom(s, true)
  }

  /** Splitting on spaces and taking each word's first character picks exactly the word-initial characters. */
  lemma {:induction false} FirstCharsAreWordStarts(s: string)
    ensures FirstChars(Split(s, ' ')) == StartsFrom(s, true)
    ensures FirstChars(Split(s, ' ')[1..]) == StartsFrom(s, false)
  {
    if s != [] {
      var rest := Split(s[1..], ' ');
      FirstCharsAreWordStarts(s[1..]);
      if s[0] == ' ' {
        assert Split(s, ' ') == [""] + rest;
        assert ([""] + rest)[1..] == rest;
      } else {
        var ws := [[s[0]] + rest[0]] + rest[1..];
        assert Split(s, ' ') == ws;
        assert ws[1..] == rest[1..];
      }
    }
  }

  function Min(a: int, b: int): int {
    if a <= b then a else b
  }

  /** The avatar initials: the word-initial characters of the name, upper-cased, at most two. */
  function Initials(name: string): (r: string)
  {
    var f := Upper(FirstChars(Split(name, ' ')));
    f[..Min(2, |f|)]
  }

  /** The initials are the first (up to) two word starts of the name, upper-cased, and never a space. */
  lemma InitialsSpec(name: string)
    ensures var w := WordStarts(name);
            |Initials(name)| == Min(2, |w|) &&
            forall i :: 0 <= i < |Initials(name)| ==> Initials(name)[i] == UpperChar(w[i]) && Initials(name)[i] != ' '
  {
    FirstCharsAreWordStarts(name);
  }

  function OrderTotal(o: Order): int {
    o.total
  }

  /** The "Spent" figure: the totals of every order listed, cancelled ones included. */
  function Spent(orders: seq<Order>): int {
    SumOf(orders, OrderTotal)
  }

  /** Cancelling an order leaves the amount spent as it was. */
  lemma SpentAfterCancel(all: map<string, seq<Order>>, s: Session, orderId: int, at: int, now: int)
    ensures Spent(MyOrders(CancelledIn(all, s.id, orderId, at), Some(s), now)) == Spent(MyOrders(all, Some(s), now))
    ensures |MyOrders(CancelledIn(all, s.id, orderId, at), Some(s), now)| == |MyOrders(all, Some(s), now)|
  {
    var before := MyOrders(all, Some(s), now);
    var after := MyOrders(CancelledIn(all, s.id, orderId, at), Some(s), now);
    var orders := ListOf(all, s.id);
    assert ListOf(CancelledIn(all, s.id, orderId, at), s.id) == CancelMatching(orders, orderId, at);
    forall i | 0 <= i < |after|
      ensures OrderTotal(after[i]) == OrderTotal(before[i])
    {
      assert after[i].total == CancelMatching(orders, orderId, at)[i].total;
    }
    SumPointwise(after, before, OrderTotal);
  }

  /** Placing an order adds one to the count and its total to the amount spent. */
  lemma SpentAfterPlace(all: map<string, seq<Order>>, s: Session, o: Order, now: int)
    requires o.userId == s.id && o.status != Cancelled
    ensures Spent(MyOrders(Placed(all, s.id, o), Some(s), now)) == Spent(MyOrders(all, Some(s), now)) + o.total
    ensures |MyOrders(Placed(all, s.id, o), Some(s), now)| == |MyOrders(all, Some(s), now)| + 1
  {
    var shown := MyOrders(Placed(all, s.id, o), Some(s), now);
    PlacedShownFirst(all, s, o, now);
    assert shown == [shown[0]] + shown[1..];
    SumConcat([shown[0]], shown[1..], OrderTotal);
  }

  /** The line above the list: "N order" or "N orders". */
  function CountLine(n: nat): (r: string)
    ensures |r| > |Decimal(n)| && r[..|Decimal(n)|] == Decimal(n)
    ensures (r[|r| - 1] == 's') <==> n != 1
  {
    Decimal(n) + " order" + (if n != 1 then "s" else "")
  }

  class AccountView {
    var editMode: bool
    var nameVal: string
    var nameErr: string
    var saved: bool
    var activeTab: PageTab

    /** The page opens on the orders tab with the session name in the (closed) editor. */
    constructor (user: Option<Session>)
      ensures !editMode && nameVal == (if user.Some? then user.value.name else "") && nameErr == ""
      ensures !saved && activeTab == OrdersTab
    {
      editMode := false;
      nameVal := if user.Some? then user.value.name else "";
      nameErr := "";
      saved := false;
      activeTab := OrdersTab;
    }

    method SelectTab(t: PageTab)
      modifies this
      ensures activeTab == t && editMode == old(editMode) && nameVal == old(nameVal) && nameErr == old(nameErr)
      ensures saved == old(saved)
    {
      activeTab := t;
    }

    /** "Edit" opens the editor on the current name. */
    method StartEdit(user: Session)
      modifies this
      ensures editMode && nameVal == user.name && nameErr == old(nameErr) && activeTab == old(activeTab)
      ensures saved == old(saved)
    {
      editMode := true;
      nameVal := user.name;
    }

    /** "Cancel" closes the editor and puts the current name back. */
    method CancelEdit(user: Session)
      modifies this
      ensures !editMode && nameVal == user.name && nameErr == "" && activeTab == old(activeTab)
      ensures saved == old(saved)
    {
      editMode := false;
      nameVal := user.name;
      nameErr := "";
    }

    /** Typing replaces the value and clears the error. */
    method Type(v: string)
      modifies this
      ensures nameVal == v && nameErr == "" && editMode == old(editMode) && activeTab == old(activeTab)
      ensures saved == old(saved)
    {
      nameVal := v;
      nameErr := "";
    }

    /**
     * "Save": a blank name is refused with a message and nothing else
     * changes; otherwise the trimmed name is stored for the session user,
     * the editor closes and the confirmation shows.
     */
    method SaveName(store: AuthStore)
      requires store.session.Some?
      modifies this, store
      ensures nameVal == old(nameVal) && activeTab == old(activeTab)
      ensures AllSpace(nameVal) ==>
                nameErr == NameEmpty && editMode == old(editMode) && saved == old(saved) &&
                store.users == old(store.users) && store.session == old(store.session)
      ensures !AllSpace(nameVal) ==>
                !editMode && nameErr == "" && saved &&
                store.users == RenameById(old(store.users), old(store.session).value.id, Trim(nameVal)) &&
                store.session == Some(old(store.session).value.(name := Trim(nameVal)))
      ensures store.session.Some? && (!AllSpace(nameVal) ==> !AllSpace(store.session.value.name))
      ensures old(store.Valid()) ==> store.Valid()
    {
      var t := Trim(nameVal);
      TrimEmptyIffBlank(nameVal);
      if t == [] {
        nameErr := NameEmpty;
        return;
      }
      TrimIdempotent(nameVal);
      TrimEmptyIffBlank(t);
      store.UpdateName(t);
      editMode := false;
      nameErr := "";
      saved := true;
    }

    /** "Sign Out" ends the session and returns to the product listing. */
    method Logout(store: AuthStore, shell: AppShell)
      modifies store, shell
      ensures store.session.None? && store.users == old(store.users)
      ensures shell.view == Home && shell.cartOpen == old(shell.cartOpen)
      ensures shell.addressOpen == old(shell.addressOpen) && shell.placedOrder == old(shell.placedOrder)
      ensures shell.authOpen == old(shell.authOpen) && shell.authTab == old(shell.authTab)
      ensures shell.authHint == old(shell.authHint) && shell.afterLogin == old(shell.afterLogin)
      ensures old(store.Valid()) ==> store.Valid()
    {
      store.Logout();
      shell.GoHome();
    }
  }
}
