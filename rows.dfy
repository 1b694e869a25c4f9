/** Rows of the backend's tables and the `App` record the web client works with
    (src/lib/supabase-types.ts and the `App` interface of src/lib/api.ts). */
module Rows {
  import opened Outcomes

  /** A row of the `apps` table. */
  datatype AppRow = AppRow(
    id: string,
    name: string,
    version: string,
    description: string,
    iconUrl: string,      // column icon_url
    apkUrl: string,       // column apk_url
    downloads: int,
    createdAt: string,
    updatedAt: string)

  /** A row of the `admin_users` table. */
  datatype AdminUser = AdminUser(
    id: string,
    email: string,
    passwordHash: string,
    createdAt: string,
    updatedAt: string)

  /** The record `addApp` inserts into `apps`; id and timestamps are left to the backend. */
  datatype AppInsert = AppInsert(
    name: string,
    version: string,
    description: string,
    iconUrl: string,
    apkUrl: string,
    downloads: int)

  /** The client-side `App`: the row with `icon` and `apkUrl` named as the UI expects. */
  datatype App = App(
    id: string,
    name: string,
    version: string,
    description: string,
    icon: string,
    apkUrl: string,
    downloads: int,
    createdAt: Option<string>,
    updatedAt: Option<string>)

  /** `app` carries every column of `row`, with `icon` taken from icon_url and
      `apkUrl` from apk_url. */
  ghost predicate Carries(app: App, row: AppRow)
  {
    app.id == row.id && app.name == row.name && app.version == row.version
    && app.description == row.description && app.downloads == row.downloads
    && app.createdAt == Some(row.createdAt) && app.updatedAt == Some(row.updatedAt)
    && app.icon == row.iconUrl && app.apkUrl == row.apkUrl
  }

  /** The `{ ...app, icon: app.icon_url, apkUrl: app.apk_url }` of one row. */
  function ToApp(row: AppRow): (app: App)
    ensures Carries(app, row)
  {
    App(row.id, row.name, row.version, row.description, row.iconUrl, row.apkUrl,
        row.downloads, Some(row.createdAt), Some(row.updatedAt))
  }

  /** `data.map(...)` over a whole answer. */
  function ToApps(rows: seq<AppRow>): (apps: seq<App>)
    ensures |apps| == |rows|
    ensures forall i :: 0 <= i < |rows| ==> Carries(apps[i], rows[i])
  {
    seq(|rows|, i requires 0 <= i < |rows| => ToApp(rows[i]))
  }

  /** The row an `App` was read from; only defined when both timestamps are present. */
  function ToRow(app: App): AppRow
    requires app.createdAt.Some? && app.updatedAt.Some?
  {
    AppRow(app.id, app.name, app.version, app.description, app.icon, app.apkUrl,
           app.downloads, app.createdAt.value, app.updatedAt.value)
  }

  /** The mapping loses nothing: reading back the columns gives the row again. */
  lemma ToAppRoundTrip(row: AppRow)
    ensures ToApp(row).createdAt.Some? && ToApp(row).updatedAt.Some?
    ensures ToRow(ToApp(row)) == row
  {
  }

  /** `Carries` determines the app: the mapping is the only one the relation allows. */
  lemma CarriesDeterminesApp(app: App, row: AppRow)
    requires Carries(app, row)
    ensures app == ToApp(row)
  {
  }

  /** Mapping a list maps each element alone, so it commutes with concatenation. */
  lemma {:induction false} ToAppsAppend(a: seq<AppRow>, b: seq<AppRow>)
    ensures ToApps(a + b) == ToApps(a) + ToApps(b)
  {
    forall i | 0 <= i < |a + b|
      ensures ToApps(a + b)[i] == (ToApps(a) + ToApps(b))[i]
    {
      if i < |a| {
        assert (a + b)[i] == a[i];
      } else {
        assert (a + b)[i] == b[i - |a|];
      }
    }
  }
}
