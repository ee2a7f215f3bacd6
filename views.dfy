/** What a guarded page renders, and the client-side routes it can send the
    visitor to. */
module Views {

  const HomeRoute: string := "/"
  const LoginRoute: string := "/login"
  const AdminProjectsRoute: string := "/admin/projects"
  const AdminExperiencesRoute: string := "/admin/experiences"

  /** The outcome of one render: a loading spinner, a `<Navigate>` redirect, the
      "access denied" card, an error notice, or the page's own content. */
  datatype View = Spinner | Redirect(to: string) | AccessDenied | ErrorNotice | Content

  /** The body of an admin list card: a spinner while its fetch runs, the
      "nothing added yet" notice for an empty list, or the table rows. */
  datatype ListBody = LoadingRows | EmptyNotice | Rows(count: nat)

  /** `loading ? spinner : items.length === 0 ? notice : table`. */
  function ListBodyFor(loading: bool, count: nat): (b: ListBody)
    ensures b.Rows? <==> !loading && count > 0
    ensures b.Rows? ==> b.count == count
    ensures b == LoadingRows <==> loading
  {
    if loading then LoadingRows else if count == 0 then EmptyNotice else Rows(count)
  }

  /** A row shows at most three badges of a list (`xs.slice(0, 3)`) and a
      "+n" badge for the rest (`xs.length > 3`). */
  function BadgePreview(xs: seq<string>): (r: (seq<string>, nat))
    ensures |r.0| <= 3 && |r.0| <= |xs| && r.0 == xs[..|r.0|]
    ensures |r.0| + r.1 == |xs|
    ensures r.1 > 0 ==> |r.0| == 3
  {
    if |xs| > 3 then (xs[..3], |xs| - 3) else (xs, 0)
  }
}
