/** The configuration page of app/page.tsx: the form's submit path. */
module ConfigPage {
  import opened Configuration
  import opened Storage

  /** Where a successful submit navigates to. */
  const EditorRoute: string := "/editor"

  /** What the submit handler logs when storing the config throws. */
  const SubmitErrorMessage: string := "Error generating assessment:"

  /** The page's state: the loading flag, the page's view of local storage,
      the current route, the field errors shown and the console log. */
  class ConfigForm {
    var isLoading: bool
    var store: Store
    var route: string
    var fieldErrors: seq<FieldError>
    var errorLog: seq<string>
    /** Every value `isLoading` has been set to, in order. */
    ghost var loadingLog: seq<bool>

    constructor (store: Store)
      ensures this.store == store && route == "/"
      ensures !isLoading && fieldErrors == [] && errorLog == [] && loadingLog == []
    {
      this.store := store;
      route := "/";
      isLoading := false;
      fieldErrors := [];
      errorLog := [];
      loadingLog := [];
    }

    /** The form's submit: the schema is checked first, its errors replace
        those shown, and the submit handler runs only for a valid config.
        `storageThrows` says whether writing to local storage throws. */
    method HandleSubmit(values: Config, storageThrows: bool)
      modifies this
      ensures fieldErrors == Validate(values)
      ensures !Valid(values) ==>
                && store == old(store) && route == old(route) && errorLog == old(errorLog)
                && isLoading == old(isLoading) && loadingLog == old(loadingLog)
      ensures Valid(values) ==> Submitted(values, storageThrows)
    {
      fieldErrors := Validate(values);
      if fieldErrors == [] {
        OnSubmit(values, storageThrows);
      }
    }

    /** The outcome of the submit handler relative to the state before it:
        the loading flag was raised and lowered again; if storing succeeded
        the config is stored under its key and the editor is shown, otherwise
        the error is logged, nothing is stored and the route stays. */
    twostate predicate Submitted(values: Config, storageThrows: bool)
      reads this
    {
      && !isLoading
      && loadingLog == old(loadingLog) + [true, false]
      && (!storageThrows ==>
            store == old(store)[ConfigKey := ConfigEntry(values)]
            && route == EditorRoute && errorLog == old(errorLog))
      && (storageThrows ==>
            store == old(store) && route == old(route)
            && errorLog == old(errorLog) + [SubmitErrorMessage])
    }

    /** onSubmit: raise the loading flag, store the config, navigate to the
        editor; a throwing store is logged and skips the navigation; the flag
        is lowered on both paths. */
    method OnSubmit(values: Config, storageThrows: bool)
      modifies this
      ensures Submitted(values, storageThrows)
      ensures fieldErrors == old(fieldErrors)
    {
      isLoading := true;
      loadingLog := loadingLog + [true];
      if !storageThrows {
        store := store[ConfigKey := ConfigEntry(values)];
        route := EditorRoute;
      } else {
        errorLog := errorLog + [SubmitErrorMessage];
      }
      isLoading := false;
      loadingLog := loadingLog + [false];
    }
  }
}
