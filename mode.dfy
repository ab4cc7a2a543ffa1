/**
 * The mode selector: with no backend URL configured, or one that mentions `localhost`,
 * every service answers locally (fallback mode) instead of calling the backend.
 */
module Mode {
  import opened Wrappers
  import opened Js

  datatype Mode = Fallback | Remote

  /** `!VITE_API_URL || VITE_API_URL.includes('localhost')`, evaluated once per service module. */
  function Select(apiUrl: Option<string>): (m: Mode)
    ensures m == Fallback <==>
      apiUrl == None || apiUrl.value == "" || exists i :: OccursAt(apiUrl.value, "localhost", i)
  {
    if !Present(apiUrl) then Fallback
    else
      IncludesIffOccurs(apiUrl.value, "localhost");
      if Includes(apiUrl.value, "localhost") then Fallback else Remote
  }

  /** A loopback address written numerically does not switch to fallback mode. */
  lemma NumericLoopbackIsRemote()
    ensures Select(Some("http://127.0.0.1:8000")) == Remote
  {
    FirstCharMissingExcludes("http://127.0.0.1:8000", "localhost");
  }

  /** A URL naming `localhost` anywhere, even a real host's path, selects fallback mode. */
  lemma LocalhostAnywhereIsFallback(prefix: string, suffix: string)
    ensures Select(Some(prefix + "localhost" + suffix)) == Fallback
  {
    var url := prefix + "localhost" + suffix;
    assert url[|prefix|..|prefix| + 9] == "localhost";
    assert OccursAt(url, "localhost", |prefix|);
  }
}
