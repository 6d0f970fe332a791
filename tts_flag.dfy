/** The text-to-speech feature flag: a browser may override it with a stored preference;
    otherwise the public environment flag decides. Only the exact string `true` turns the
    feature on.

    Whether the code runs in a browser, what the storage answers and the environment
    variable are parameters. */
module TtsFlag {
  import opened Wrappers

  /** What reading the stored preference gives: a value, nothing stored, or an exception. */
  datatype StorageRead = Stored(value: string) | NothingStored | Throws

  function IsTTSEnabled(checkLocalStorage: bool, isBrowser: bool, storage: StorageRead, envFlag: Option<string>): (on: bool)
    ensures isBrowser && checkLocalStorage && storage.Stored? ==> (on <==> storage.value == "true")
    ensures !(isBrowser && checkLocalStorage && storage.Stored?) ==> (on <==> envFlag == Some("true"))
  {
    if isBrowser && checkLocalStorage && storage.Stored? then storage.value == "true"
    else envFlag == Some("true")
  }

  /** Without the storage check, as the speech route calls it, the storage is never
      consulted: any two storage states give the same answer. */
  lemma ServerIgnoresStorage(isBrowser: bool, s1: StorageRead, s2: StorageRead, envFlag: Option<string>)
    ensures IsTTSEnabled(false, isBrowser, s1, envFlag) == IsTTSEnabled(false, isBrowser, s2, envFlag)
  {
  }

  /** A storage exception is swallowed and behaves as if nothing were stored. */
  lemma StorageFailureFallsBack(checkLocalStorage: bool, isBrowser: bool, envFlag: Option<string>)
    ensures IsTTSEnabled(checkLocalStorage, isBrowser, Throws, envFlag)
         == IsTTSEnabled(checkLocalStorage, isBrowser, NothingStored, envFlag)
  {
  }

  /** What the speech route answers before reading the request: 403 when the flag is off. */
  function TtsRouteGate(envFlag: Option<string>): (status: Option<int>)
    ensures status.Some? <==> envFlag != Some("true")
    ensures status.Some? ==> status.value == 403
  {
    if !IsTTSEnabled(false, false, NothingStored, envFlag) then Some(403) else None
  }
}
