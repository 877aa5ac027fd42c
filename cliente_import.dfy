/**
 * The CSV import dialog (`ClienteImportModal`): the file name shown for a typed path, and the path
 * state around the import call. The import itself is a write whose outcome is a parameter.
 */
module ClienteImport {
  import opened Wrappers
  import Text
  import UseApi

  const BLANK_PATH_ALERT := "Por favor, insira o caminho do arquivo CSV."
  const IMPORTED_MESSAGE := "Clientes importados com sucesso!"

  /** `path.split('/').pop() || path.split('\\').pop() || path`. */
  function GetFileName(path: string): (r: string)
    ensures Text.IsSuffix(r, path)
    ensures '/' !in path ==> r == path
    ensures path == "" ==> r == ""
  {
    var afterSlash := Text.Last(Text.Split(path, '/'));
    if afterSlash != "" then
      Text.SplitLast(path, '/');
      afterSlash
    else
      var afterBackslash := Text.Last(Text.Split(path, '\\'));
      if afterBackslash != "" then
        Text.SplitLast(path, '\\');
        afterBackslash
      else path
  }

  /** The last piece of a split is empty exactly when the string is empty or ends with the separator. */
  lemma LastPieceEmptyIff(s: string, sep: char)
    ensures Text.Last(Text.Split(s, sep)) == "" <==> s == "" || s[|s| - 1] == sep
  {
    Text.SplitLast(s, sep);
  }

  /** With a '/' that does not end the path, the name is the non-empty part after the last '/'. */
  lemma NameAfterLastSlash(path: string)
    requires '/' in path && path[|path| - 1] != '/'
    ensures var r := GetFileName(path);
      r != "" && '/' !in r && path[|path| - |r| - 1] == '/'
  {
    LastPieceEmptyIff(path, '/');
    Text.SplitLast(path, '/');
  }

  /**
   * A path ending in '/' has an empty part after its last '/': the name falls back to the part after the
   * last '\\', or to the whole path when that is empty too.
   */
  lemma TrailingSlashFallsBack(path: string)
    requires path != "" && path[|path| - 1] == '/'
    ensures var afterBackslash := Text.Last(Text.Split(path, '\\'));
      GetFileName(path) == if afterBackslash != "" then afterBackslash else path
  {
    LastPieceEmptyIff(path, '/');
    assert Text.Last(Text.Split(path, '/')) == "";
  }

  /** Backslashes are not separators while there is no '/': a Windows path is shown whole. */
  lemma BackslashPathShownWhole()
    ensures GetFileName("C:\\dados\\clientes.csv") == "C:\\dados\\clientes.csv"
  {
    var path := "C:\\dados\\clientes.csv";
    assert forall i :: 0 <= i < |path| ==> path[i] != '/';
  }

  /** The dialog's path state, the alerts it raised, the paths sent to the import and the effects of each import. */
  class ImportModal {
    var filePath: string
    var alerts: seq<string>
    var imported: seq<string>
    var effects: seq<UseApi.Effect<()>>
    var importSuccesses: nat

    constructor ()
      ensures filePath == "" && alerts == [] && imported == [] && effects == [] && importSuccesses == 0
    {
      filePath, alerts, imported, effects, importSuccesses := "", [], [], [], 0;
    }

    /** `handleFilePathChange`: the input's value becomes the path. */
    method HandleFilePathChange(value: string)
      modifies this
      ensures filePath == value
      ensures alerts == old(alerts) && imported == old(imported) && effects == old(effects)
      ensures importSuccesses == old(importSuccesses)
    {
      filePath := value;
    }

    /**
     * `handleImport`: a blank path raises the alert and calls nothing; otherwise the trimmed path is
     * imported, and on success the parent is told and the path is cleared.
     */
    method HandleImport(outcome: UseApi.Outcome<()>)
      modifies this
      ensures Text.AllWhitespace(old(filePath)) ==>
        alerts == old(alerts) + [BLANK_PATH_ALERT] && imported == old(imported) && effects == old(effects)
        && filePath == old(filePath) && importSuccesses == old(importSuccesses)
      ensures !Text.AllWhitespace(old(filePath)) ==>
        alerts == old(alerts) && imported == old(imported) + [Text.Trim(old(filePath))]
        && effects == old(effects) + UseApi.MutateEffects(Some(ImportOptions()), outcome)
      ensures !Text.AllWhitespace(old(filePath)) && outcome.Resolved? ==>
        filePath == "" && importSuccesses == old(importSuccesses) + 1
      ensures !Text.AllWhitespace(old(filePath)) && outcome.Rejected? ==>
        filePath == old(filePath) && importSuccesses == old(importSuccesses)
    {
      var trimmed := Text.Trim(filePath);
      if trimmed == "" {
        alerts := alerts + [BLANK_PATH_ALERT];
        return;
      }
      Import(trimmed, outcome);
    }

    /** The `importClientes` call of `handleImport` on an already trimmed path, with its `onSuccess`. */
    method Import(path: string, outcome: UseApi.Outcome<()>)
      modifies this
      ensures alerts == old(alerts) && imported == old(imported) + [path]
      ensures effects == old(effects) + UseApi.MutateEffects(Some(ImportOptions()), outcome)
      ensures outcome.Resolved? ==> filePath == "" && importSuccesses == old(importSuccesses) + 1
      ensures outcome.Rejected? ==> filePath == old(filePath) && importSuccesses == old(importSuccesses)
    {
      imported := imported + [path];
      effects := effects + UseApi.MutateEffects(Some(ImportOptions()), outcome);
      if outcome.Resolved? {
        importSuccesses := importSuccesses + 1;
        filePath := "";
      }
    }
  }

  /** The options of the import mutation: the success toast, and `onSuccess` telling the parent. */
  function ImportOptions(): (r: UseApi.MutateOptions)
    ensures r.hasOnSuccess && !r.hasOnError && r.successMessage == Some(IMPORTED_MESSAGE)
  {
    UseApi.MutateOptions(true, false, Some(IMPORTED_MESSAGE))
  }

  /**
   * The outcome of the import call as the repository defines it: `clientesAPI` has no `importar`, so the
   * call throws a `TypeError` inside `mutate`'s `try`, an error with no `response`.
   */
  const IMPORT_OUTCOME_AS_WRITTEN: UseApi.Outcome<()> := UseApi.Rejected(UseApi.ApiError(None))

  /**
   * As written, every import ends in the generic error toast and nothing else: the success toast and
   * `onSuccess` (which tells the parent and clears the path) never run.
   */
  lemma ImportAsWrittenFails()
    ensures UseApi.MutateEffects(Some(ImportOptions()), IMPORT_OUTCOME_AS_WRITTEN)
            == [UseApi.Toasted(UseApi.ErrorToast(UseApi.MUTATION_ERROR))]
  {
  }

  /** What reaches the import is never blank and never starts or ends with whitespace. */
  lemma ImportedPathIsTrimmed(filePath: string)
    requires !Text.AllWhitespace(filePath)
    ensures var p := Text.Trim(filePath);
      p != "" && !Text.IsWhitespace(p[0]) && !Text.IsWhitespace(p[|p| - 1])
  {
    Text.TrimEnds(filePath);
  }
}
