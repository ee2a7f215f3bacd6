/** The backend client configuration and the three record types the
    application reads and writes (src/lib/supabase.ts). */
module Supabase {
  import opened Common

  /** `Profile.role` is one of exactly two strings. */
  datatype Role = AdminRole | UserRole

  function RoleName(r: Role): (name: string)
    ensures name == "admin" <==> r == AdminRole
    ensures name == "user" <==> r == UserRole
  {
    match r
    case AdminRole => "admin"
    case UserRole => "user"
  }

  /** Reads a stored role string; anything but the two role names is no role. */
  function ParseRole(name: string): (r: Option<Role>)
    ensures r.Some? ==> RoleName(r.value) == name
  {
    if name == "admin" then Some(AdminRole)
    else if name == "user" then Some(UserRole)
    else None
  }

  lemma RoleRoundTrip(r: Role)
    ensures ParseRole(RoleName(r)) == Some(r)
  {
  }

  datatype Profile = Profile(id: string, email: string, role: Role, createdAt: string)

  /** A stored project; `demo_url` and `repo_url` may be absent. */
  datatype Project = Project(
    id: string,
    title: string,
    description: string,
    imageUrl: string,
    demoUrl: Option<string>,
    repoUrl: Option<string>,
    tags: seq<string>,
    featured: bool,
    createdAt: string)

  /** A stored work experience; `end_date` may be absent, `current` may not. */
  datatype Experience = Experience(
    id: string,
    company: string,
    position: string,
    description: string,
    startDate: string,
    endDate: Option<string>,
    current: bool,
    skills: seq<string>,
    location: string)

  /** The values the client is created with. */
  datatype ClientConfig = ClientConfig(url: string, anonKey: string)

  const PlaceholderUrl: string := "https://example.supabase.co"
  const PlaceholderKey: string := "dummy-key"

  /** `import.meta.env.X || ""`: an unset variable reads as the empty string. */
  function EnvOrEmpty(v: Option<string>): (r: string)
    ensures v.Some? ==> r == v.value
    ensures v.None? ==> r == ""
  {
    if v.Some? then v.value else ""
  }

  /** The configuration is missing (and an error is logged) when either value is
      empty. */
  predicate ConfigMissing(urlEnv: Option<string>, keyEnv: Option<string>) {
    EnvOrEmpty(urlEnv) == "" || EnvOrEmpty(keyEnv) == ""
  }

  /** `createSupabaseClient`: with either value missing the client is built
      against a placeholder project instead of failing; otherwise the two values
      are used as given. The result is never empty. */
  function CreateClientConfig(urlEnv: Option<string>, keyEnv: Option<string>): (c: ClientConfig)
    ensures c.url != "" && c.anonKey != ""
    ensures ConfigMissing(urlEnv, keyEnv) ==> c == ClientConfig(PlaceholderUrl, PlaceholderKey)
    ensures !ConfigMissing(urlEnv, keyEnv) ==> c == ClientConfig(urlEnv.value, keyEnv.value)
  {
    var url := EnvOrEmpty(urlEnv);
    var key := EnvOrEmpty(keyEnv);
    if url == "" || key == "" then ClientConfig(PlaceholderUrl, PlaceholderKey)
    else ClientConfig(url, key)
  }
}
