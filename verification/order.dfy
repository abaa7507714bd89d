/**
 The order document as the controller reads it, the caller's role with its
 permissions, the permission gate, and the short order code shown to admins.
 */
module OrderModel {
  import opened Wrappers
  import opened OrderStatus
  import opened Pricing

  /**
   An order document. `id` is the string form of `_id` (None when absent);
   `products` is None when the field is not an array.
   */
  datatype Order = Order(
    id: Option<string>,
    fullName: string,
    products: Option<seq<LineItem>>,
    status: StatusField,
    deleted: bool)

  /**
   A store keyed by id: every document sits under the string form of its
   own `_id`, as a document found by `{_id: id}` always has that id.
   */
  ghost predicate WellKeyed(store: map<string, Order>) {
    forall k :: k in store ==> store[k].id == Some(k)
  }

  /** The lines of an order; a missing or non-array `products` field has none. */
  function LinesOf(o: Order): seq<LineItem> {
    o.products.GetOr([])
  }

  /**
   The role resolved for the caller: none at all, or a role whose
   `permissions` is an array (Some) or something else (None).
   */
  datatype Role = NoRole | Role(permissions: Option<seq<string>>)

  const OrdersView := "orders_view"

  /** The permission gate shared by listing, detail and status change. */
  predicate HasOrderPermission(role: Role) {
    role.Role? && role.permissions.Some? && OrdersView in role.permissions.value
  }

  /**
   The gate depends only on which permissions a role holds: a role holding at
   least the permissions of an admitted role is admitted too, and a role
   without a permissions array is never admitted.
   */
  lemma HasOrderPermissionMonotone(perms: seq<string>, more: seq<string>)
    requires forall p :: p in perms ==> p in more
    ensures HasOrderPermission(Role(Some(perms))) ==> HasOrderPermission(Role(Some(more)))
    ensures !HasOrderPermission(NoRole) && !HasOrderPermission(Role(None))
  {
  }

  /** ASCII upper-casing of one character; other characters are unchanged. */
  function UpperChar(c: char): (r: char)
    ensures !('a' <= r <= 'z')
    ensures !('a' <= c <= 'z') ==> r == c
  {
    if 'a' <= c <= 'z' then (c as int - 'a' as int + 'A' as int) as char else c
  }

  function ToUpper(s: string): (r: string)
    ensures |r| == |s|
    ensures forall i :: 0 <= i < |s| ==> r[i] == UpperChar(s[i])
  {
    seq(|s|, i requires 0 <= i < |s| => UpperChar(s[i]))
  }

  function Min(a: int, b: int): int {
    if a <= b then a else b
  }

  /** `s.slice(-n)`: the last min(n, |s|) characters of s. */
  function Suffix(s: string, n: nat): (r: string)
    ensures |r| == Min(n, |s|)
    ensures forall i :: 0 <= i < |r| ==> r[i] == s[|s| - |r| + i]
  {
    s[|s| - Min(n, |s|)..]
  }

  /** The order code: the last six characters of the id, upper-cased; empty when there is no id. */
  function OrderCode(id: Option<string>): (r: string)
    ensures id.None? ==> r == ""
    ensures id.Some? ==> |r| == Min(6, |id.value|)
    ensures id.Some? ==> forall i :: 0 <= i < |r| ==> r[i] == UpperChar(id.value[|id.value| - |r| + i])
    ensures forall i :: 0 <= i < |r| ==> !('a' <= r[i] <= 'z')
  {
    match id
    case None => ""
    case Some(s) =>
      var code := ToUpper(Suffix(s, 6));
      assert forall i :: 0 <= i < |code| ==> code[i] == UpperChar(Suffix(s, 6)[i]);
      code
  }

  /** The worked example of an ObjectId string. */
  lemma OrderCodeExample()
    ensures OrderCode(Some("60f1a2b3c4d5e6f7a8b9c0d1")) == "B9C0D1"
  {
    var id := "60f1a2b3c4d5e6f7a8b9c0d1";
    var code := OrderCode(Some(id));
    assert |id| == 24 && |code| == 6;
    assert id[18] == 'b' && id[19] == '9' && id[20] == 'c';
    assert id[21] == '0' && id[22] == 'd' && id[23] == '1';
    assert code[0] == UpperChar(id[18]) && code[1] == UpperChar(id[19]) && code[2] == UpperChar(id[20]);
    assert code[3] == UpperChar(id[21]) && code[4] == UpperChar(id[22]) && code[5] == UpperChar(id[23]);
  }
}
