/** What the back end (backend/main.py) raises to the client, and how it
    derives its database URL from the environment at start-up. */
module BackendErrors {
  import Text

  /** A FastAPI HTTPException: a status code, a detail text and extra headers. */
  datatype HttpError = HttpError(status: nat, detail: string, headers: seq<(string, string)>)

  function Raise(status: nat, detail: string): HttpError
  {
    HttpError(status, detail, [])
  }

  /** `str(e)` of an HTTPException, as Starlette prints it: "{status}: {detail}". */
  function ExceptionText(e: HttpError): string
  {
    Text.NatToString(e.status) + ": " + e.detail
  }
}

module BackendConfig {
  import opened Wrappers
  import Text

  /** `supabase_url.split('//')` has no second field: the import of the module
      fails with IndexError. */
  datatype StartupError = ProjectRefIndexError

  /** `supabase_url.split('//')[1].split('.')[0]`; None where indexing [1]
      raises. */
  function ProjectRef(supabaseUrl: string): (r: Option<string>)
    ensures r.None? <==> forall k :: 0 <= k <= |supabaseUrl| ==> !Text.OccursAt(supabaseUrl, "//", k)
  {
    match Text.SecondField(supabaseUrl, "//")
    case Some(field) => Some(Text.BeforeFirst(field, "."))
    case None => None
  }

  /** The connection string built from the Supabase project. */
  function SupabaseDatabaseUrl(key: string, projectRef: string): string
  {
    "postgresql://postgres:" + key + "@db." + projectRef + ".supabase.co:5432/postgres"
  }

  /** The value DATABASE_URL ends up with: the environment's DATABASE_URL when
      set and non-empty; otherwise, when SUPABASE_URL is set, a URL built from
      its project ref and the service-role key, or None when that key is
      missing. With SUPABASE_URL unset the environment's value stays as it is. */
  function DatabaseUrl(databaseUrl: Option<string>, supabaseUrl: Option<string>, serviceRoleKey: Option<string>)
    : (r: Result<Option<string>, StartupError>)
    ensures r.Err? <==> !Text.Truthy(databaseUrl) && Text.Truthy(supabaseUrl) && ProjectRef(supabaseUrl.value).None?
    ensures r.Ok? && r.value != databaseUrl ==> Text.Truthy(supabaseUrl) && !Text.Truthy(databaseUrl)
  {
    if Text.Truthy(databaseUrl) then Ok(databaseUrl)
    else if Text.Truthy(supabaseUrl) then
      match ProjectRef(supabaseUrl.value)
      case None => Err(ProjectRefIndexError)
      case Some(projectRef) =>
        if Text.Truthy(serviceRoleKey) then Ok(Some(SupabaseDatabaseUrl(serviceRoleKey.value, projectRef)))
        else Ok(None)
    else Ok(databaseUrl)
  }

  /** A set DATABASE_URL is used unchanged, whatever else is configured. */
  lemma ExplicitUrlWins(databaseUrl: Option<string>, supabaseUrl: Option<string>, serviceRoleKey: Option<string>)
    requires Text.Truthy(databaseUrl)
    ensures DatabaseUrl(databaseUrl, supabaseUrl, serviceRoleKey) == Ok(databaseUrl)
  {
  }

  /** The project ref is the text after the first "//", up to the next "." or
      the next "//", whichever comes first (or up to the end). */
  lemma ProjectRefShape(url: string)
    requires exists k :: Text.OccursAt(url, "//", k)
    ensures var r := ProjectRef(url);
      var after := Text.SplitFirst(url, "//").value.1;
      && r.Some?
      && |r.value| <= |after| && r.value == after[..|r.value|]
      && (forall k :: 0 <= k < |r.value| ==> after[k] != '.' && !Text.OccursAt(after, "//", k))
      && (|r.value| == |after| || after[|r.value|] == '.' || Text.OccursAt(after, "//", |r.value|))
  {
    var after := Text.SplitFirst(url, "//").value.1;
    var field := Text.BeforeFirst(after, "//");
    var r := Text.BeforeFirst(field, ".");
    forall k | 0 <= k < |r| ensures after[k] != '.' {
      assert !Text.OccursAt(field, ".", k);
      assert field[k..k + 1] == [field[k]];
    }
    if |r| < |field| {
      assert field[|r|..|r| + 1] == ".";
      assert field[|r|] == '.';
    }
  }

  /** Without DATABASE_URL but with a Supabase URL and a key, the Supabase
      connection string for that project ref is used. */
  lemma DerivedFromSupabase(supabaseUrl: string, key: string, databaseUrl: Option<string>)
    requires !Text.Truthy(databaseUrl) && supabaseUrl != [] && key != []
    requires ProjectRef(supabaseUrl).Some?
    ensures DatabaseUrl(databaseUrl, Some(supabaseUrl), Some(key))
      == Ok(Some("postgresql://postgres:" + key + "@db." + ProjectRef(supabaseUrl).value + ".supabase.co:5432/postgres"))
  {
  }

  /** With a Supabase URL but no key there is no database URL. */
  lemma NoKeyNoDatabase(supabaseUrl: string, key: Option<string>, databaseUrl: Option<string>)
    requires !Text.Truthy(databaseUrl) && supabaseUrl != [] && !Text.Truthy(key)
    requires ProjectRef(supabaseUrl).Some?
    ensures DatabaseUrl(databaseUrl, Some(supabaseUrl), key) == Ok(None)
  {
  }

  /** A Supabase URL without "//" makes the start-up fail, before the key is
      looked at. */
  lemma UrlWithoutSchemeFails(supabaseUrl: string, key: Option<string>, databaseUrl: Option<string>)
    requires !Text.Truthy(databaseUrl) && supabaseUrl != []
    requires forall k :: 0 <= k <= |supabaseUrl| ==> !Text.OccursAt(supabaseUrl, "//", k)
    ensures DatabaseUrl(databaseUrl, Some(supabaseUrl), key) == Err(ProjectRefIndexError)
  {
  }

  /** Without SUPABASE_URL the environment's DATABASE_URL (unset or empty) is
      kept and nothing is derived. */
  lemma NoSupabaseKeepsEnvironment(databaseUrl: Option<string>, supabaseUrl: Option<string>, key: Option<string>)
    requires !Text.Truthy(databaseUrl) && !Text.Truthy(supabaseUrl)
    ensures DatabaseUrl(databaseUrl, supabaseUrl, key) == Ok(databaseUrl)
  {
  }
}
