/** The client list page (app/client/page.tsx): the table of users, its sort comparators and
    counter badges, and the bulk stop, start and remove actions on the selected rows. */
module ClientList {
  import opened Common
  import opened Entities
  import Numbers
  import BulkSelection

  /** The backend calls the page makes, in the order it makes them. */
  datatype Request = ListUsers | GetUser(id: int) | UpdateUser(id: int, user: User) | DeleteUser(id: int)

  function DeleteRequests(ids: seq<int>): (r: seq<Request>)
    ensures |r| == |ids| && forall i :: 0 <= i < |ids| ==> r[i] == DeleteUser(ids[i])
  {
    seq(|ids|, i requires 0 <= i < |ids| => DeleteUser(ids[i]))
  }

  /** The record sent back for a stop or start: the freshly fetched user with `disable` set. */
  function WithDisable(fetched: User, disable: bool): (u: User)
    ensures u.disable == Some(disable) && u.id == fetched.id
    ensures u.(disable := fetched.disable) == fetched
  {
    fetched.(disable := Some(disable))
  }

  /** Processing position p of a stop or start succeeds: it names a row, the user is fetched, and
      the update with `disable` set is accepted. */
  predicate Toggles(rows: seq<User>, getUser: int -> Outcome<User>, updateOk: (int, User) -> bool, disable: bool, p: int) {
    && 0 <= p < |rows|
    && getUser(rows[p].id).Resolved?
    && updateOk(rows[p].id, WithDisable(getUser(rows[p].id).value, disable))
  }

  /** The calls made while processing one position, whether it succeeds or not. */
  function ToggleCalls(rows: seq<User>, getUser: int -> Outcome<User>, disable: bool, p: int): seq<Request> {
    if !(0 <= p < |rows|) then []
    else
      var id := rows[p].id;
      var fetched := getUser(id);
      if fetched.Rejected? then [GetUser(id)] else [GetUser(id), UpdateUser(id, WithDisable(fetched.value, disable))]
  }

  function ToggleTrail(rows: seq<User>, getUser: int -> Outcome<User>, disable: bool, positions: seq<int>): seq<Request> {
    if positions == [] then []
    else
      ToggleTrail(rows, getUser, disable, positions[..|positions| - 1])
        + ToggleCalls(rows, getUser, disable, positions[|positions| - 1])
  }

  /** One iteration of the stop/start loop: read the row (`undefined` when the position is out of
      range, whose `.id` throws), fetch the user, send it back with `disable` set. */
  method ToggleOne(rows: seq<User>, p: int, disable: bool,
                   getUser: int -> Outcome<User>, updateOk: (int, User) -> bool)
    returns (ok: bool, calls: seq<Request>)
    ensures ok == Toggles(rows, getUser, updateOk, disable, p)
    ensures calls == ToggleCalls(rows, getUser, disable, p)
  {
    if !(0 <= p < |rows|) {
      return false, [];
    }
    var id := rows[p].id;
    var fetched := getUser(id);
    calls := [GetUser(id)];
    if fetched.Rejected? {
      return false, calls;
    }
    var updated := WithDisable(fetched.value, disable);
    calls := calls + [UpdateUser(id, updated)];
    ok := updateOk(id, updated);
  }

  lemma ToggleTrailStep(rows: seq<User>, getUser: int -> Outcome<User>, disable: bool, positions: seq<int>, n: nat)
    requires n < |positions|
    ensures ToggleTrail(rows, getUser, disable, positions[..n + 1])
            == ToggleTrail(rows, getUser, disable, positions[..n]) + ToggleCalls(rows, getUser, disable, positions[n])
  {
    assert positions[..n + 1][..n] == positions[..n];
  }

  /** The stop/start loop on the list as it was when the handler started: how many positions it
      got through and the calls it made. */
  method ToggleSelected(rows: seq<User>, positions: seq<int>, disable: bool,
                        getUser: int -> Outcome<User>, updateOk: (int, User) -> bool)
    returns (done: nat, calls: seq<Request>)
    ensures done <= |positions|
    ensures forall k :: 0 <= k < done ==> Toggles(rows, getUser, updateOk, disable, positions[k])
    ensures done < |positions| ==> !Toggles(rows, getUser, updateOk, disable, positions[done])
    ensures calls == ToggleTrail(rows, getUser, disable, BulkSelection.Attempted(positions, done))
  {
    done, calls := 0, [];
    while done < |positions|
      invariant done <= |positions|
      invariant forall k :: 0 <= k < done ==> Toggles(rows, getUser, updateOk, disable, positions[k])
      invariant calls == ToggleTrail(rows, getUser, disable, positions[..done])
    {
      var ok, step := ToggleOne(rows, positions[done], disable, getUser, updateOk);
      ToggleTrailStep(rows, getUser, disable, positions, done);
      calls := calls + step;
      if !ok {
        return;
      }
      done := done + 1;
    }
    assert positions[..done] == positions;
  }

  class ClientDashboard {
    var users: seq<User>
    /** The grid's selection: row positions, in the order they were selected. */
    var selectedItems: seq<int>
    var loading: bool
    var requests: seq<Request>

    constructor ()
      ensures users == [] && selectedItems == [] && loading && requests == []
    {
      users, selectedItems, loading, requests := [], [], true, [];
    }

    /** The mount effect: fetch the users (a failure is only logged) and hide the spinner. */
    method Mount(response: Outcome<seq<User>>)
      modifies this`users, this`loading, this`requests
      ensures requests == old(requests) + [ListUsers]
      ensures users == if response.Resolved? then response.value else old(users)
      ensures !loading
    {
      FetchUsers(response);
      loading := false;
    }

    /** `fetchUsers`: replace the list on success, keep it on failure. */
    method FetchUsers(response: Outcome<seq<User>>)
      modifies this`users, this`requests
      ensures requests == old(requests) + [ListUsers]
      ensures users == if response.Resolved? then response.value else old(users)
    {
      requests := requests + [ListUsers];
      if response.Resolved? {
        users := response.value;
      }
    }

    method SelectionChange(selected: seq<int>)
      modifies this`selectedItems
      ensures selectedItems == selected
    {
      selectedItems := selected;
    }

    /** The stop, start and remove buttons are shown while something is selected. */
    predicate BulkActionsVisible()
      reads this
    {
      |selectedItems| > 0
    }

    /** "Stop selected" (disable = true) and "Start selected" (disable = false): every selected
        user is fetched and sent back with the flag set; the first failure ends the run, leaving
        the list and the selection as they were. A run that gets through refetches the list
        (whose failure is only logged) and clears the selection. */
    method SetDisabledForSelection(disable: bool, getUser: int -> Outcome<User>, updateOk: (int, User) -> bool,
                                   refetch: Outcome<seq<User>>)
      returns (done: nat)
      modifies this`users, this`selectedItems, this`requests
      ensures done <= |old(selectedItems)|
      ensures forall k :: 0 <= k < done ==> Toggles(old(users), getUser, updateOk, disable, old(selectedItems)[k])
      ensures done < |old(selectedItems)| ==> !Toggles(old(users), getUser, updateOk, disable, old(selectedItems)[done])
      ensures done == |old(selectedItems)| ==>
                && requests == old(requests) + ToggleTrail(old(users), getUser, disable, old(selectedItems)) + [ListUsers]
                && users == (if refetch.Resolved? then refetch.value else old(users))
                && selectedItems == []
      ensures done < |old(selectedItems)| ==>
                && requests == old(requests) + ToggleTrail(old(users), getUser, disable, old(selectedItems)[..done + 1])
                && users == old(users)
                && selectedItems == old(selectedItems)
    {
      var calls;
      done, calls := ToggleSelected(users, selectedItems, disable, getUser, updateOk);
      requests := requests + calls;
      if done == |selectedItems| {
        FetchUsers(refetch);
        selectedItems := [];
      }
    }

    /** "Remove selected": the shared remove loop on this list; the selection is cleared only
        when every selected row was deleted. */
    method HandleRemove(deleteOk: int -> bool) returns (done: nat)
      modifies this`users, this`selectedItems, this`requests
      ensures BulkSelection.StopsAtFirstFailure(old(users), UserId, deleteOk, old(selectedItems), done)
      ensures users == BulkSelection.AfterRemove(old(users), UserId, old(selectedItems), done)
      ensures requests == old(requests)
                + DeleteRequests(BulkSelection.DeletedIds(old(users), UserId, BulkSelection.Attempted(old(selectedItems), done)))
      ensures selectedItems == if done == |old(selectedItems)| then [] else old(selectedItems)
    {
      var shown, deleted;
      done, shown, deleted := BulkSelection.RemoveSelected(users, UserId, selectedItems, deleteOk);
      users := shown;
      requests := requests + DeleteRequests(deleted);
      if done == |selectedItems| {
        selectedItems := [];
      }
    }
  }

  /** A bulk action on a non-empty selection hides the bulk buttons exactly when it gets through
      every selected row. */
  method BulkButtonsAfterRemove(d: ClientDashboard, deleteOk: int -> bool) returns (visible: bool)
    requires d.BulkActionsVisible()
    modifies d
    ensures visible == d.BulkActionsVisible()
    ensures !visible <==> forall k :: 0 <= k < |old(d.selectedItems)| ==> BulkSelection.Deletes(old(d.users), UserId, deleteOk, old(d.selectedItems)[k])
  {
    var done := d.HandleRemove(deleteOk);
    visible := d.BulkActionsVisible();
  }

  /** The `authorized`, `disable` and `test` columns as written:
      `a.f === b.f ? 0 : a.f ? -1 : 1`, comparing the raw optional flags. */
  function FlagCompare(a: Option<bool>, b: Option<bool>): (c: int)
    ensures a == b ==> c == 0
    ensures a.Some? && b.Some? ==> (c == 0 <==> a == b) && (c < 0 <==> a.value && !b.value)
  {
    if a == b then 0 else if TruthyFlag(a) then -1 else 1
  }

  /** An absent flag and `false` each compare as larger than the other. */
  lemma FlagCompareNotAntisymmetric()
    ensures FlagCompare(None, Some(false)) == 1 && FlagCompare(Some(false), None) == 1
  {
  }

  /** The comparator as evidently meant: absent counts as false, set flags first. */
  function FlagCompareByTruthiness(a: Option<bool>, b: Option<bool>): (c: int)
    ensures c == 0 <==> TruthyFlag(a) == TruthyFlag(b)
    ensures c < 0 <==> TruthyFlag(a) && !TruthyFlag(b)
    ensures c > 0 <==> !TruthyFlag(a) && TruthyFlag(b)
  {
    if TruthyFlag(a) == TruthyFlag(b) then 0 else if TruthyFlag(a) then -1 else 1
  }

  lemma FlagCompareByTruthinessAntisymmetric(a: Option<bool>, b: Option<bool>)
    ensures FlagCompareByTruthiness(a, b) == -FlagCompareByTruthiness(b, a)
  {
  }

  datatype BadgeColour = Danger | Informative

  datatype CounterBadge = CounterBadge(text: string, colour: BadgeColour)

  /** `count ?? 0` */
  function CountOrZero(count: Option<int>): int {
    if count.Some? then count.value else 0
  }

  /** The "messages today" (and "chats today") badge: `count / limit` when the limit is truthy,
      the count alone otherwise; red when the raw count and limit are equal. */
  function Counter(count: Option<int>, limit: Option<int>): (b: CounterBadge)
    ensures b.colour == Danger <==> count == limit
    ensures '/' in b.text <==> TruthyNumber(limit)
  {
    var shown := Numbers.IntText(CountOrZero(count));
    Numbers.IntTextHasNoDelimiter(CountOrZero(count), '/');
    if TruthyNumber(limit) then
      Numbers.IntTextHasNoDelimiter(limit.value, '/');
      assert (shown + " / " + Numbers.IntText(limit.value))[|shown| + 1] == '/';
      CounterBadge(shown + " / " + Numbers.IntText(limit.value), if count == limit then Danger else Informative)
    else
      CounterBadge(shown, if count == limit then Danger else Informative)
  }

  /** Reads a badge text back into the count shown and the limit, if any. */
  function ReadCounter(text: string): Option<(int, Option<int>)> {
    if '/' in text then
      var k := FirstIndex(text, '/');
      if 2 <= k && k + 2 <= |text| && text[k - 1] == ' ' && text[k + 1] == ' '
         && Numbers.IsNumeral(text[..k - 1]) && Numbers.IsNumeral(text[k + 2..])
      then Some((Numbers.ParseInt(text[..k - 1]), Some(Numbers.ParseInt(text[k + 2..]))))
      else None
    else if Numbers.IsNumeral(text) then Some((Numbers.ParseInt(text), None))
    else None
  }

  /** The badge shows the count (0 when absent) and shows the limit exactly when it is truthy. */
  lemma CounterReadsBack(count: Option<int>, limit: Option<int>)
    ensures ReadCounter(Counter(count, limit).text)
            == Some((CountOrZero(count), if TruthyNumber(limit) then limit else None))
  {
    var shown := Numbers.IntText(CountOrZero(count));
    Numbers.IntTextRoundTrip(CountOrZero(count));
    Numbers.IntTextHasNoDelimiter(CountOrZero(count), '/');
    if TruthyNumber(limit) {
      Numbers.IntTextRoundTrip(limit.value);
      ReadCounterPair(shown, Numbers.IntText(limit.value));
    }
  }

  lemma ReadCounterPair(a: string, b: string)
    requires Numbers.IsNumeral(a) && Numbers.IsNumeral(b) && '/' !in a
    ensures ReadCounter(a + " / " + b) == Some((Numbers.ParseInt(a), Some(Numbers.ParseInt(b))))
  {
    var text := a + " / " + b;
    assert text[..|a|] == a && text[|a|] == ' ' && text[|a| + 1] == '/';
    assert text[..|a| + 1] == a + " ";
    assert FirstIndex(text, '/') == |a| + 1;
    assert text[|a| + 3..] == b;
  }

  /** A user with neither a count nor a limit gets the red badge although it shows 0. */
  lemma CounterRedWhenBothAbsent()
    ensures Counter(None, None) == CounterBadge("0", Danger)
  {
  }
}
