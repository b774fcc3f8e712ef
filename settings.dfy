/** The label tables and the log visibility rule of the settings page
    (src/pages/admin/Settings.tsx). */
module Settings {
  import opened Seqs
  import opened Entities
  import AdminProducts
  import AdminCustomers
  import AdminOrders
  import Checkout

  /** the action updateProfile logs */
  const UpdateProfileAction := "update_profile"

  /** getActionText's table */
  const ActionLabels: map<string, string> := map[
    "create_product" := "Menambah produk",
    "update_product" := "Memperbarui produk",
    "delete_product" := "Menghapus produk",
    "create_order" := "Membuat pesanan",
    "update_order_status" := "Memperbarui status pesanan",
    "update_payment_status" := "Memperbarui status pembayaran",
    "create_customer" := "Menambah pelanggan",
    "update_customer" := "Memperbarui pelanggan",
    "delete_customer" := "Menghapus pelanggan",
    "update_profile" := "Memperbarui profil"]

  /** getActionText: the label, or the action string itself */
  function ActionText(action: string): string {
    if action in ActionLabels then ActionLabels[action] else action
  }

  /** A known action shows its label, which differs from the action string;
      an unknown one is shown unchanged. */
  lemma {:induction false} ActionTextSpec(action: string)
    ensures action in ActionLabels ==> ActionText(action) == ActionLabels[action]
    ensures ActionText(action) != action <==> action in ActionLabels
  {
  }

  /** Every action string the pages write to the activity log has a label. */
  lemma {:induction false} EveryLoggedActionHasLabel(editing: bool)
    ensures AdminProducts.SaveAction(editing) in ActionLabels
    ensures AdminProducts.DeleteAction in ActionLabels
    ensures AdminCustomers.SaveAction(editing) in ActionLabels
    ensures AdminCustomers.DeleteAction in ActionLabels
    ensures AdminOrders.UpdateOrderStatusAction in ActionLabels
    ensures AdminOrders.UpdatePaymentStatusAction in ActionLabels
    ensures Checkout.CreateOrderAction in ActionLabels
    ensures UpdateProfileAction in ActionLabels
  {
  }

  const RoleLabels: map<string, string> := map[
    "admin" := "Administrator", "manager" := "Manajer", "employee" := "Karyawan"]

  /** getRoleText: the label, or the role string itself */
  function RoleText(role: string): string {
    if role in RoleLabels then RoleLabels[role] else role
  }

  const RoleBadgeClasses: map<string, string> := map[
    "admin" := "bg-red-100 text-red-800",
    "manager" := "bg-blue-100 text-blue-800",
    "employee" := "bg-green-100 text-green-800"]

  const UnknownRoleBadge := "bg-gray-100 text-gray-800"

  /** getRoleBadge: the role's colour, gray for anything else */
  function RoleBadge(role: string): string {
    if role in RoleBadgeClasses then RoleBadgeClasses[role] else UnknownRoleBadge
  }

  /** The three roles of the schema get their own distinct text and colour;
      any other string keeps its text and gets the gray colour. */
  lemma {:induction false} RoleLabelsSpec(role: string, r1: Role, r2: Role)
    ensures RoleName(r1) in RoleLabels && RoleText(RoleName(r1)) != RoleName(r1)
    ensures RoleBadge(RoleName(r1)) != UnknownRoleBadge
    ensures r1 != r2 ==> (RoleText(RoleName(r1)) != RoleText(RoleName(r2))
                          && RoleBadge(RoleName(r1)) != RoleBadge(RoleName(r2)))
    ensures ParseRole(role).None? ==> RoleText(role) == role && RoleBadge(role) == UnknownRoleBadge
  {
  }

  /** the most logs the page asks for */
  const LogLimit := 50

  /** fetchActivityLogs: the logs as the database orders them (newest first),
      narrowed to the signed-in user's own when the role is employee, and at
      most the first 50 of those. A missing user id matches no log. */
  function VisibleLogs(logs: seq<ActivityLog>, userRole: Option<string>, userId: Option<string>): seq<ActivityLog> {
    var scoped := if userRole == Some("employee") then OwnLogs(logs, userId) else logs;
    Take(scoped, LogLimit)
  }

  /** `.eq('user_id', user?.id)`: the logs written by the given user */
  function OwnLogs(logs: seq<ActivityLog>, userId: Option<string>): seq<ActivityLog> {
    Filter(logs, (l: ActivityLog) => userId.Some? && l.userId == userId.value)
  }

  /** An employee sees only their own logs, as many of them as the limit
      allows, and all of them when there are no more than 50; every other
      role sees the first logs unfiltered. Either way no more than 50 are
      shown, in the database's order, and none is made up. */
  lemma {:induction false} VisibleLogsSpec(logs: seq<ActivityLog>, userRole: Option<string>, userId: Option<string>)
    ensures |VisibleLogs(logs, userRole, userId)| <= LogLimit
    ensures IsSubseq(VisibleLogs(logs, userRole, userId), logs)
    ensures userRole == Some("employee") ==>
            forall l :: l in VisibleLogs(logs, userRole, userId) ==> userId == Some(l.userId)
    ensures userRole == Some("employee") ==>
            |VisibleLogs(logs, userRole, userId)|
            == if |OwnLogs(logs, userId)| < LogLimit then |OwnLogs(logs, userId)| else LogLimit
    ensures userRole == Some("employee") && |OwnLogs(logs, userId)| <= LogLimit ==>
            forall l :: l in logs && userId == Some(l.userId) ==> l in VisibleLogs(logs, userRole, userId)
    ensures userRole != Some("employee") ==>
            VisibleLogs(logs, userRole, userId) == logs[..if |logs| < LogLimit then |logs| else LogLimit]
  {
    var own := (l: ActivityLog) => userId.Some? && l.userId == userId.value;
    var scoped := if userRole == Some("employee") then OwnLogs(logs, userId) else logs;
    var shown := Take(scoped, LogLimit);
    TakeIsSubseq(scoped, LogLimit);
    if userRole == Some("employee") {
      assert scoped == Filter(logs, own);
      FilterIsSubseq(logs, own);
      SubseqTrans(shown, scoped, logs);
      forall l | l in shown ensures userId == Some(l.userId) {
        FilterMembers(logs, own, l);
      }
      if |scoped| <= LogLimit {
        assert shown == scoped;
        forall l | l in logs && userId == Some(l.userId) ensures l in shown {
          FilterMembers(logs, own, l);
        }
      }
    } else {
      SubseqRefl(logs);
    }
  }
}
