/** The request paths of the order manager (services/api/orderManager.ts), built by string
    templates from the caller's values without any URL encoding. */
module OrderUrls {
  import opened Common
  import opened Numbers

  /** The optional `group` argument: `number | string | null`. */
  datatype GroupParam = NoGroup | GroupNumber(n: int) | GroupName(s: string)

  /** `group ? ... : ...` */
  predicate GroupTruthy(g: GroupParam) {
    match g
    case NoGroup => false
    case GroupNumber(n) => n != 0
    case GroupName(s) => s != ""
  }

  /** `${group}` */
  function GroupText(g: GroupParam): string {
    match g
    case NoGroup => "null"
    case GroupNumber(n) => IntText(n)
    case GroupName(s) => s
  }

  /** `getOrders`: list orders of a user, with skip 0 and limit 100 unless given, and the group
      filter only when the group is truthy. */
  function OrdersUrl(userId: int, skip: int := 0, limit: int := 100, group: GroupParam := NoGroup): string {
    var url := "/orders/?skip=" + IntText(skip) + "&limit=" + IntText(limit) + "&user_id=" + IntText(userId);
    if GroupTruthy(group) then url + "&group_id=" + GroupText(group) else url
  }

  /** `getOrderByCode`: the code goes into the path as it is. */
  function OrderByCodeUrl(userId: int, code: string, skip: int := 0, limit: int := 100): string {
    "/orders/code/" + code + "?skip=" + IntText(skip) + "&limit=" + IntText(limit) + "&user_id=" + IntText(userId)
  }

  /** `createOrder` posts the order data to this path. */
  function CreateOrderUrl(userId: int): string {
    "/users/" + IntText(userId) + "/orders/"
  }

  /** The pieces of `s` between occurrences of `c`. */
  function Split(s: string, c: char): (parts: seq<string>)
    ensures |parts| >= 1
    decreases |s|
  {
    if c in s then
      var k := FirstIndex(s, c);
      [s[..k]] + Split(s[k + 1..], c)
    else [s]
  }

  /** The pieces joined back with `c` between them. */
  function Join(parts: seq<string>, c: char): string
    requires |parts| >= 1
  {
    if |parts| == 1 then parts[0] else parts[0] + [c] + Join(parts[1..], c)
  }

  lemma JoinCons(p: string, parts: seq<string>, c: char)
    requires |parts| >= 1
    ensures Join([p] + parts, c) == p + [c] + Join(parts, c)
  {
    assert ([p] + parts)[1..] == parts;
  }

  lemma SplitPiece(a: string, c: char, b: string)
    requires c !in a
    ensures Split(a + [c] + b, c) == [a] + Split(b, c)
  {
    var s := a + [c] + b;
    assert s[..|a|] == a && s[|a|] == c;
    assert FirstIndex(s, c) == |a|;
    assert s[|a| + 1..] == b;
  }

  /** Splitting undoes joining, as long as no piece holds the separator. */
  lemma {:induction false} SplitJoin(parts: seq<string>, c: char)
    requires |parts| >= 1
    requires forall i :: 0 <= i < |parts| ==> c !in parts[i]
    ensures Split(Join(parts, c), c) == parts
    decreases |parts|
  {
    if |parts| > 1 {
      var rest := parts[1..];
      assert Join(parts, c) == parts[0] + [c] + Join(rest, c);
      assert forall i :: 0 <= i < |rest| ==> c !in rest[i] by {
        forall i | 0 <= i < |rest| ensures c !in rest[i] {
          assert rest[i] == parts[i + 1];
        }
      }
      SplitPiece(parts[0], c, Join(rest, c));
      SplitJoin(rest, c);
      assert [parts[0]] + rest == parts;
    }
  }

  /** The path of a URL: everything before the first '?'. */
  function Path(url: string): string {
    if '?' in url then url[..FirstIndex(url, '?')] else url
  }

  /** The `key=value` parameters of a URL's query, in order. */
  function Params(url: string): seq<string> {
    if '?' in url then Split(url[FirstIndex(url, '?') + 1..], '&') else []
  }

  lemma UrlParts(path: string, query: string)
    requires '?' !in path
    ensures Path(path + ['?'] + query) == path
    ensures Params(path + ['?'] + query) == Split(query, '&')
  {
    var url := path + ['?'] + query;
    assert url[..|path|] == path && url[|path|] == '?';
    assert FirstIndex(url, '?') == |path|;
    assert url[|path| + 1..] == query;
  }

  lemma NumeralHasNoDelimiters(n: int)
    ensures '&' !in IntText(n) && '?' !in IntText(n) && '/' !in IntText(n)
  {
    IntTextHasNoDelimiter(n, '&');
    IntTextHasNoDelimiter(n, '?');
    IntTextHasNoDelimiter(n, '/');
  }

  /** The paging parameters every order query carries. */
  function PagingParams(userId: int, skip: int, limit: int): (ps: seq<string>)
    ensures |ps| == 3 && forall i :: 0 <= i < 3 ==> '&' !in ps[i]
  {
    NumeralHasNoDelimiters(skip);
    NumeralHasNoDelimiters(limit);
    NumeralHasNoDelimiters(userId);
    ["skip=" + IntText(skip), "limit=" + IntText(limit), "user_id=" + IntText(userId)]
  }

  lemma JoinThree(p0: string, p1: string, p2: string, c: char)
    ensures Join([p0, p1, p2], c) == p0 + [c] + p1 + [c] + p2
  {
    JoinCons(p1, [p2], c);
    JoinCons(p0, [p1, p2], c);
    assert [p1] + [p2] == [p1, p2] && [p0] + [p1, p2] == [p0, p1, p2];
  }

  lemma JoinFour(p0: string, p1: string, p2: string, p3: string, c: char)
    ensures Join([p0, p1, p2, p3], c) == p0 + [c] + p1 + [c] + p2 + [c] + p3
  {
    JoinCons(p2, [p3], c);
    JoinCons(p1, [p2, p3], c);
    JoinCons(p0, [p1, p2, p3], c);
    assert [p2] + [p3] == [p2, p3] && [p1] + [p2, p3] == [p1, p2, p3] && [p0] + [p1, p2, p3] == [p0, p1, p2, p3];
  }

  lemma ListUrlShape(a: string, b: string, u: string)
    ensures "/orders/?skip=" + a + "&limit=" + b + "&user_id=" + u
            == "/orders/" + ['?'] + Join(["skip=" + a, "limit=" + b, "user_id=" + u], '&')
  {
    var q0, q1, q2 := "skip=" + a, "limit=" + b, "user_id=" + u;
    JoinThree(q0, q1, q2, '&');
    var p := "/orders/" + ['?'];
    var j1 := q0 + ['&'] + q1;
    assert "/orders/?skip=" + a == p + q0;
    assert "/orders/?skip=" + a + "&limit=" + b == p + j1;
    assert "/orders/?skip=" + a + "&limit=" + b + "&user_id=" + u == p + (j1 + ['&'] + q2);
  }

  lemma GroupListUrlShape(a: string, b: string, u: string, g: string)
    ensures "/orders/?skip=" + a + "&limit=" + b + "&user_id=" + u + "&group_id=" + g
            == "/orders/" + ['?'] + Join(["skip=" + a, "limit=" + b, "user_id=" + u, "group_id=" + g], '&')
  {
    var q0, q1, q2, q3 := "skip=" + a, "limit=" + b, "user_id=" + u, "group_id=" + g;
    JoinFour(q0, q1, q2, q3, '&');
    var p := "/orders/" + ['?'];
    var j1 := q0 + ['&'] + q1;
    var j2 := j1 + ['&'] + q2;
    var s1 := "/orders/?skip=" + a + "&limit=" + b;
    var s2 := s1 + "&user_id=" + u;
    assert "/orders/?skip=" + a == p + q0;
    assert s1 == p + j1;
    assert s2 == p + j2;
    assert s2 + "&group_id=" + g == p + (j2 + ['&'] + q3);
  }

  lemma CodePathShape(code: string)
    ensures "/orders/code/" + code == Join(["", "orders", "code", code], '/')
  {
    JoinCons("code", [code], '/');
    JoinCons("orders", ["code", code], '/');
    JoinCons("", ["orders", "code", code], '/');
  }

  lemma CodePathSegments(code: string)
    requires '/' !in code
    ensures Split("/orders/code/" + code, '/') == ["", "orders", "code", code]
  {
    var segments := ["", "orders", "code", code];
    CodePathShape(code);
    assert forall i :: 0 <= i < |segments| ==> '/' !in segments[i];
    SplitJoin(segments, '/');
  }

  lemma CodeUrlShape(code: string, a: string, b: string, u: string)
    ensures "/orders/code/" + code + "?skip=" + a + "&limit=" + b + "&user_id=" + u
            == ("/orders/code/" + code) + ['?'] + Join(["skip=" + a, "limit=" + b, "user_id=" + u], '&')
  {
    JoinCons("limit=" + b, ["user_id=" + u], '&');
    JoinCons("skip=" + a, ["limit=" + b, "user_id=" + u], '&');
  }

  /** The parameters a list request carries. */
  function ListParams(userId: int, skip: int, limit: int, group: GroupParam): (ps: seq<string>)
    ensures |ps| == if GroupTruthy(group) then 4 else 3
    ensures '&' !in GroupText(group) ==> forall i :: 0 <= i < |ps| ==> '&' !in ps[i]
  {
    PagingParams(userId, skip, limit) + (if GroupTruthy(group) then ["group_id=" + GroupText(group)] else [])
  }

  lemma OrdersUrlShape(userId: int, skip: int, limit: int, group: GroupParam)
    ensures OrdersUrl(userId, skip, limit, group) == "/orders/" + ['?'] + Join(ListParams(userId, skip, limit, group), '&')
  {
    if GroupTruthy(group) {
      assert ListParams(userId, skip, limit, group)
             == ["skip=" + IntText(skip), "limit=" + IntText(limit), "user_id=" + IntText(userId), "group_id=" + GroupText(group)];
      GroupListUrlShape(IntText(skip), IntText(limit), IntText(userId), GroupText(group));
    } else {
      assert ListParams(userId, skip, limit, group) == PagingParams(userId, skip, limit);
      ListUrlShape(IntText(skip), IntText(limit), IntText(userId));
    }
  }

  /** A list URL asks for /orders/ with skip, limit and user id, and adds the group filter exactly
      when the group is truthy; a group name cannot add parameters unless it contains '&'. */
  lemma OrdersUrlParams(userId: int, skip: int, limit: int, group: GroupParam)
    requires '&' !in GroupText(group)
    ensures Path(OrdersUrl(userId, skip, limit, group)) == "/orders/"
    ensures Params(OrdersUrl(userId, skip, limit, group)) == ListParams(userId, skip, limit, group)
  {
    var all := ListParams(userId, skip, limit, group);
    OrdersUrlShape(userId, skip, limit, group);
    UrlParts("/orders/", Join(all, '&'));
    SplitJoin(all, '&');
  }

  /** A code search keeps the code as the last path segment, as long as the code itself holds no
      '?' or '/'. */
  lemma OrderByCodeUrlPath(userId: int, code: string, skip: int, limit: int)
    requires '?' !in code && '/' !in code
    ensures Path(OrderByCodeUrl(userId, code, skip, limit)) == "/orders/code/" + code
    ensures Split(Path(OrderByCodeUrl(userId, code, skip, limit)), '/') == ["", "orders", "code", code]
  {
    CodeUrlShape(code, IntText(skip), IntText(limit), IntText(userId));
    UrlParts("/orders/code/" + code, Join(PagingParams(userId, skip, limit), '&'));
    CodePathSegments(code);
  }

  /** A code search carries the same paging parameters as a list request, as long as the code
      holds no '?'. */
  lemma OrderByCodeUrlParams(userId: int, code: string, skip: int, limit: int)
    requires '?' !in code
    ensures Params(OrderByCodeUrl(userId, code, skip, limit)) == PagingParams(userId, skip, limit)
  {
    var ps := PagingParams(userId, skip, limit);
    CodeUrlShape(code, IntText(skip), IntText(limit), IntText(userId));
    UrlParts("/orders/code/" + code, Join(ps, '&'));
    SplitJoin(ps, '&');
  }

  /** The create path names the user as its second segment. */
  lemma CreateOrderUrlParts(userId: int)
    ensures Split(CreateOrderUrl(userId), '/') == ["", "users", IntText(userId), "orders", ""]
    ensures ParseInt(Split(CreateOrderUrl(userId), '/')[2]) == userId
  {
    NumeralHasNoDelimiters(userId);
    IntTextRoundTrip(userId);
    UserPathSegments(IntText(userId));
  }

  lemma UserPathSegments(t: string)
    requires '/' !in t
    ensures Split("/users/" + t + "/orders/", '/') == ["", "users", t, "orders", ""]
  {
    var segments := ["", "users", t, "orders", ""];
    var tail := [t, "orders", ""];
    JoinThree(t, "orders", "", '/');
    JoinCons("users", tail, '/');
    JoinCons("", ["users"] + tail, '/');
    assert ["users"] + tail == ["users", t, "orders", ""];
    assert [""] + (["users"] + tail) == segments;
    assert Join(tail, '/') == t + "/orders/";
    assert Join(["users"] + tail, '/') == "users/" + (t + "/orders/");
    assert "/users/" + t + "/orders/" == Join(segments, '/');
    assert forall i :: 0 <= i < |segments| ==> '/' !in segments[i];
    SplitJoin(segments, '/');
  }
}
