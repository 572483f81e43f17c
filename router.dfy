/** Classifier routing of `predict_and_append`: the adduct of a row picks a
    per-adduct random-forest model when one was trained for it and the
    "all" model otherwise, and the chosen model's probability of class 1 is
    appended as `confidence_score`, one value per row in row order.

    The model directory is its listing (file names, in listing order); a
    fitted model is named by its file and applied through a classifier
    function, so loading a file that is not listed raises
    FileNotFoundError. */
module Router {
  import opened Wrappers
  import opened Text
  import opened Candidates

  /** A probability returned by `predict_proba(...)[:, 1]`. */
  type Prob = p: real | 0.0 <= p <= 1.0

  /** The loaded model of a file, applied to one row's features. */
  type Classifier = string -> seq<real> -> Prob

  /** A row as the classifier sees it: its adduct cell and its feature cells
      in the order of `feature_columns`; None is NaN (or, in
      calculating_score, a column the table lacks). */
  datatype FeatureRow = FeatureRow(adduct: Option<string>, features: seq<Option<real>>)

  /** The features handed to the model: NaN replaced by 0. */
  function FeatureValues(row: FeatureRow): (xs: seq<real>)
    ensures |xs| == |row.features|
    ensures forall i :: 0 <= i < |xs| ==> xs[i] == (if row.features[i].Some? then row.features[i].value else 0.0)
  {
    seq(|row.features|, i requires 0 <= i < |row.features| => row.features[i].GetOr(0.0))
  }

  // ---------------------------------------------------------------------------
  // The selector key

  /** `str(row.get(adduct_column, "all")).replace("+", "plus").replace("-", "minus")`:
      a table without the adduct column reads "all", a NaN adduct "nan". */
  function SelectorKey(hasAdductColumn: bool, adduct: Option<string>): (key: string)
    ensures '+' !in key && '-' !in key
  {
    var text := if hasAdductColumn then TextOf(adduct) else "all";
    var plus := ReplaceAll(text, "+", "plus");
    ReplaceKeepsOut(text, "+", "plus", '+');
    ReplaceKeepsOut(text, "+", "plus", '-');
    ReplaceKeepsOut(plus, "-", "minus", '+');
    ReplaceKeepsOut(plus, "-", "minus", '-');
    ReplaceAll(plus, "-", "minus")
  }

  /** A character survives a replacement only from the replacement text or
      from the input, and a one-character pattern never survives. */
  lemma {:induction false} ReplaceKeepsOut(s: string, p: string, r: string, d: char)
    requires p != []
    ensures d in ReplaceAll(s, p, r) ==> d in r || (d in s && !(|p| == 1 && d == p[0]))
    decreases |s|
  {
    if |s| >= |p| {
      if p <= s {
        ReplaceKeepsOut(s[|p|..], p, r, d);
      } else {
        ReplaceKeepsOut(s[1..], p, r, d);
        assert |p| == 1 ==> s[0] != p[0];
      }
    }
  }

  /** Text without the pattern's character passes through a one-character
      replacement unchanged. */
  lemma ReplaceCharAbsent(s: string, c: char, r: string)
    requires c !in s
    ensures ReplaceAll(s, [c], r) == s
  {
    ContainsCharIff(s, c);
    ReplaceAbsent(s, [c], r);
  }

  /** An adduct without signs is its own key; without an adduct column every
      row asks for "all", and a NaN adduct asks for "nan". */
  lemma SelectorKeyUnsigned(hasAdductColumn: bool, adduct: Option<string>)
    ensures !hasAdductColumn ==> SelectorKey(hasAdductColumn, adduct) == "all"
    ensures hasAdductColumn && adduct.None? ==> SelectorKey(hasAdductColumn, adduct) == "nan"
    ensures hasAdductColumn && adduct.Some? && '+' !in adduct.value && '-' !in adduct.value ==>
      SelectorKey(hasAdductColumn, adduct) == adduct.value
  {
    var text := if hasAdductColumn then TextOf(adduct) else "all";
    if '+' !in text && '-' !in text {
      ReplaceCharAbsent(text, '+', "plus");
      ReplaceCharAbsent(text, '-', "minus");
    }
  }

  /** The key of the protonated adduct: every "+" reads "plus". */
  lemma SelectorKeyProtonated()
    ensures SelectorKey(true, Some("[M+H]+")) == "[MplusH]plus"
  {
    var p := "+";
    assert ReplaceAll("", p, "plus") == "";
    assert ReplaceAll("+", p, "plus") == "plus";
    assert ReplaceAll("]+", p, "plus") == "]plus";
    assert ReplaceAll("H]+", p, "plus") == "H]plus";
    assert ReplaceAll("+H]+", p, "plus") == "plusH]plus";
    assert ReplaceAll("M+H]+", p, "plus") == "MplusH]plus";
    assert ReplaceAll("[M+H]+", p, "plus") == "[MplusH]plus";
    ReplaceCharAbsent("[MplusH]plus", '-', "minus");
  }

  // ---------------------------------------------------------------------------
  // Model files

  /** A model file's adduct key: the second-to-last `_`-token with ".pkl"
      removed. The files considered all contain "random_forest_" and so have
      at least two tokens (ModelFileHasTwoTokens); a name with one token
      would raise IndexError and is given the empty key. */
  function ModelKey(file: string): string {
    var tokens := SplitOn(file, '_');
    if |tokens| >= 2 then ReplaceAll(tokens[|tokens| - 2], ".pkl", "") else ""
  }

  /** Splitting at the first separator. */
  lemma SplitOnFirst(a: string, c: char, b: string)
    requires c !in a
    ensures SplitOn(a + [c] + b, c) == [a] + SplitOn(b, c)
  {
    var s := a + [c] + b;
    var k := IndexOf(s, c);
    assert s[|a|] == c;
    assert s[..k] == a;
    assert s[k + 1..] == b;
  }

  predicate IsModelFile(file: string) {
    Contains(file, "random_forest_")
  }

  lemma ModelFileHasTwoTokens(file: string)
    requires IsModelFile(file)
    ensures |SplitOn(file, '_')| >= 2
  {
    var k := ContainsWitness(file, "random_forest_");
    assert file[k + 13] == '_';
    var tokens := SplitOn(file, '_');
    assert tokens == [BeforeFirst(file, '_')] + SplitOn(AfterFirst(file, '_'), '_');
  }

  /** The key is the token in front of the last `_` part: for example
      `random_forest_[MplusH]plus_optimized.pkl` yields `[MplusH]plus` and
      `random_forest_all_optimized.pkl` yields `all`. */
  lemma ModelKeyOf(file: string, stem: string, key: string, tail: string)
    requires '_' !in key && '_' !in tail && !Contains(key, ".pkl")
    requires file == stem + ['_'] + (key + ['_'] + tail)
    ensures ModelKey(file) == key
  {
    SplitOnLastTwo(file, stem, key, tail);
    ReplaceAbsent(key, ".pkl", "");
  }

  /** Splitting a concatenation at a separator between the halves. */
  lemma {:induction false} SplitOnJoined(x: string, c: char, y: string)
    ensures SplitOn(x + [c] + y, c) == SplitOn(x, c) + SplitOn(y, c)
    decreases |x|
  {
    if c in x {
      var a := BeforeFirst(x, c);
      var rest := AfterFirst(x, c);
      assert x + [c] + y == a + [c] + (rest + [c] + y);
      SplitOnFirst(a, c, rest + [c] + y);
      SplitOnFirst(a, c, rest);
      SplitOnJoined(rest, c, y);
    } else {
      SplitOnFirst(x, c, y);
    }
  }

  lemma SplitOnLastTwo(s: string, stem: string, key: string, tail: string)
    requires '_' !in key && '_' !in tail
    requires s == stem + ['_'] + (key + ['_'] + tail)
    ensures var tokens := SplitOn(s, '_');
      |tokens| >= 2 && tokens[|tokens| - 2] == key && tokens[|tokens| - 1] == tail
  {
    var rest := key + ['_'] + tail;
    var head := SplitOn(stem, '_');
    assert SplitOn(rest, '_') == [key, tail] by {
      SplitOnFirst(key, '_', tail);
      assert SplitOn(tail, '_') == [tail];
    }
    assert SplitOn(s, '_') == head + [key, tail] by {
      SplitOnJoined(stem, '_', rest);
    }
  }

  /** `trained_adducts`: the keys of the listed model files, in listing order. */
  function TrainedKeys(listing: seq<string>): (keys: seq<string>)
    ensures |keys| <= |listing|
  {
    if listing == [] then []
    else
      var n := |listing| - 1;
      TrainedKeys(listing[..n]) + (if IsModelFile(listing[n]) then [ModelKey(listing[n])] else [])
  }

  /** A listed file yields the key k as a model file. */
  predicate YieldsKey(file: string, k: string) {
    IsModelFile(file) && ModelKey(file) == k
  }

  /** Every listed model file's key is trained ... */
  lemma {:induction false} TrainedKeyOfFile(listing: seq<string>, i: nat)
    requires i < |listing| && IsModelFile(listing[i])
    ensures ModelKey(listing[i]) in TrainedKeys(listing)
  {
    var n := |listing| - 1;
    if i < n {
      assert listing[..n][i] == listing[i];
      TrainedKeyOfFile(listing[..n], i);
    }
  }

  /** ... and every trained key comes from a listed model file. */
  lemma {:induction false} TrainedKeyHasFile(listing: seq<string>, k: string) returns (i: nat)
    requires k in TrainedKeys(listing)
    ensures i < |listing| && YieldsKey(listing[i], k)
  {
    var n := |listing| - 1;
    if k in TrainedKeys(listing[..n]) {
      i := TrainedKeyHasFile(listing[..n], k);
      assert listing[..n][i] == listing[i];
    } else {
      i := n;
    }
  }

  /** The file `predict_and_append` loads the all model from first. */
  const AllModelFile: string := "random_forest_all_optimized.pkl"

  /** The file loaded for a row: the adduct's own model when its key is
      among the trained keys, the all model otherwise. */
  function ModelFileFor(key: string, trained: seq<string>): (file: string)
    ensures key in trained ==> file == "random_forest_" + key + "_optimized.pkl"
    ensures key !in trained ==> file == AllModelFile
  {
    if key in trained then "random_forest_" + key + "_optimized.pkl" else AllModelFile
  }

  /** A row of a table without an adduct column always gets the all model,
      whether or not "all" is a trained key (the all model's own file yields
      the key "all"). */
  lemma NoAdductColumnUsesAllModel(trained: seq<string>, adduct: Option<string>)
    ensures ModelFileFor(SelectorKey(false, adduct), trained) == AllModelFile
  {
    SelectorKeyUnsigned(false, adduct);
  }

  // ---------------------------------------------------------------------------
  // predict_and_append (struc_score_calc, both copies)

  /** joblib.load of a model file by name. */
  function Load(listing: seq<string>, file: string): (r: Result<string>)
    ensures r.Ok? <==> file in listing
    ensures r.Ok? ==> r.value == file
    ensures r.Err? ==> r.error == FileNotFoundError(file)
  {
    if file in listing then Ok(file) else Err(FileNotFoundError(file))
  }

  /** The model file of every row, in row order. */
  function ModelFiles(trained: seq<string>, hasAdductColumn: bool, rows: seq<FeatureRow>): (files: seq<string>)
    ensures |files| == |rows|
  {
    seq(|rows|, i requires 0 <= i < |rows| => ModelFileFor(SelectorKey(hasAdductColumn, rows[i].adduct), trained))
  }

  /** The row loop: one probability per row, in row order, from the row's
      model file, or the FileNotFoundError of the first row whose model file
      is not listed. */
  function RowPredictions(listing: seq<string>, classify: Classifier, files: seq<string>,
                          rows: seq<FeatureRow>): (r: Result<seq<Prob>>)
    requires |files| == |rows|
    ensures r.Ok? <==> forall i :: 0 <= i < |rows| ==> files[i] in listing
    ensures r.Ok? ==>
      |r.value| == |rows| && forall i :: 0 <= i < |rows| ==> r.value[i] == classify(files[i])(FeatureValues(rows[i]))
  {
    if rows == [] then Ok([])
    else
      var n := |rows| - 1;
      match RowPredictions(listing, classify, files[..n], rows[..n])
      case Err(e) => Err(e)
      case Ok(probs) =>
        match Load(listing, files[n])
        case Err(e) => Err(e)
        case Ok(file) =>
          var p: Prob := classify(file)(FeatureValues(rows[n]));
          Ok(probs + [p])
  }

  /** What `predict_and_append` returns (the appended column): the all
      model must load first, then every row's model. */
  function StrucPredictions(listing: seq<string>, classify: Classifier, hasAdductColumn: bool,
                            rows: seq<FeatureRow>): (r: Result<seq<Prob>>)
    ensures AllModelFile !in listing ==> r == Err(FileNotFoundError(AllModelFile))
    ensures AllModelFile in listing ==>
      r == RowPredictions(listing, classify, ModelFiles(TrainedKeys(listing), hasAdductColumn, rows), rows)
  {
    if AllModelFile !in listing then Err(FileNotFoundError(AllModelFile))
    else RowPredictions(listing, classify, ModelFiles(TrainedKeys(listing), hasAdductColumn, rows), rows)
  }

  /** The row loop of both struc_score_calc copies. */
  method PredictAndAppend(listing: seq<string>, classify: Classifier, hasAdductColumn: bool,
                          rows: seq<FeatureRow>) returns (r: Result<seq<Prob>>)
    ensures r == StrucPredictions(listing, classify, hasAdductColumn, rows)
  {
    if AllModelFile !in listing {
      return Err(FileNotFoundError(AllModelFile));
    }
    var trained := TrainedKeys(listing);
    ghost var files := ModelFiles(trained, hasAdductColumn, rows);
    var probs: seq<Prob> := [];
    for i := 0 to |rows|
      invariant RowPredictions(listing, classify, files[..i], rows[..i]) == Ok(probs)
    {
      PredictionStep(listing, classify, files, rows, i, probs);
      var key := SelectorKey(hasAdductColumn, rows[i].adduct);
      var file := if key in trained then "random_forest_" + key + "_optimized.pkl" else AllModelFile;
      assert file == files[i];
      if file !in listing {
        r := Err(FileNotFoundError(file));
        RowPredictionsKeepError(listing, classify, files, rows, i + 1);
        return;
      }
      var p: Prob := classify(file)(FeatureValues(rows[i]));
      probs := probs + [p];
    }
    assert rows[..|rows|] == rows;
    assert files[..|rows|] == files;
    r := Ok(probs);
  }

  /** One more row: its prediction is appended, or its missing model file
      becomes the error. */
  lemma PredictionStep(listing: seq<string>, classify: Classifier, files: seq<string>,
                       rows: seq<FeatureRow>, i: nat, probs: seq<Prob>)
    requires |files| == |rows| && i < |rows|
    requires RowPredictions(listing, classify, files[..i], rows[..i]) == Ok(probs)
    ensures RowPredictions(listing, classify, files[..i + 1], rows[..i + 1])
         == if files[i] in listing then Ok(probs + [classify(files[i])(FeatureValues(rows[i]))])
            else Err(FileNotFoundError(files[i]))
  {
    assert rows[..i + 1][..i] == rows[..i];
    assert files[..i + 1][..i] == files[..i];
  }

  lemma {:induction false} RowPredictionsKeepError(listing: seq<string>, classify: Classifier, files: seq<string>,
                                                   rows: seq<FeatureRow>, n: nat)
    requires |files| == |rows|
    requires n <= |rows| && RowPredictions(listing, classify, files[..n], rows[..n]).Err?
    ensures RowPredictions(listing, classify, files, rows) == RowPredictions(listing, classify, files[..n], rows[..n])
    decreases |rows| - n
  {
    if n < |rows| {
      assert rows[..n + 1][..n] == rows[..n];
      assert files[..n + 1][..n] == files[..n];
      RowPredictionsKeepError(listing, classify, files, rows, n + 1);
    } else {
      assert rows[..n] == rows;
      assert files[..n] == files;
    }
  }

  /** The first row whose model file is missing decides the error. */
  lemma FirstMissingModel(listing: seq<string>, classify: Classifier, files: seq<string>,
                          rows: seq<FeatureRow>, i: nat)
    requires |files| == |rows| && i < |rows|
    requires files[i] !in listing
    requires forall j :: 0 <= j < i ==> files[j] in listing
    ensures RowPredictions(listing, classify, files, rows) == Err(FileNotFoundError(files[i]))
  {
    assert RowPredictions(listing, classify, files[..i], rows[..i]).Ok?;
    assert rows[..i + 1][..i] == rows[..i];
    assert files[..i + 1][..i] == files[..i];
    RowPredictionsKeepError(listing, classify, files, rows, i + 1);
  }

  // ---------------------------------------------------------------------------
  // predict_and_append (calculating_score)

  /** The default model of the formula pipeline. */
  const DefaultModelFile: string := "random_forest_all.pkl"

  predicate IsAdductModelFile(file: string) {
    IsModelFile(file) && file != DefaultModelFile
  }

  /** `model_dict`: for each listed model file other than the default, in
      listing order, its key is bound to the file, so a later file with the
      same key replaces an earlier one. */
  function ModelDict(listing: seq<string>): (d: map<string, string>)
    ensures forall k :: k in d ==> d[k] in listing && IsAdductModelFile(d[k]) && ModelKey(d[k]) == k
  {
    if listing == [] then map[]
    else
      var n := |listing| - 1;
      var f := listing[n];
      if IsAdductModelFile(f) then ModelDict(listing[..n])[ModelKey(f) := f]
      else ModelDict(listing[..n])
  }

  /** The dictionary holds the key of every adduct model file, bound to the
      last listed file with that key. */
  lemma {:induction false} ModelDictLastWins(listing: seq<string>, i: nat)
    requires i < |listing| && IsAdductModelFile(listing[i])
    requires forall j :: i < j < |listing| && IsAdductModelFile(listing[j]) ==> ModelKey(listing[j]) != ModelKey(listing[i])
    ensures ModelKey(listing[i]) in ModelDict(listing)
    ensures ModelDict(listing)[ModelKey(listing[i])] == listing[i]
  {
    var n := |listing| - 1;
    if i < n {
      forall j | i < j < n && IsAdductModelFile(listing[..n][j])
        ensures ModelKey(listing[..n][j]) != ModelKey(listing[..n][i])
      {
        assert listing[..n][j] == listing[j];
      }
      ModelDictLastWins(listing[..n], i);
    }
  }

  /** The dict-building loop of calculating_score. */
  method LoadModels(listing: seq<string>) returns (d: map<string, string>)
    ensures d == ModelDict(listing)
  {
    d := map[];
    for i := 0 to |listing|
      invariant d == ModelDict(listing[..i])
    {
      assert listing[..i + 1][..i] == listing[..i];
      var f := listing[i];
      if Contains(f, "random_forest_") && f != DefaultModelFile {
        d := d[ModelKey(f) := f];
      }
    }
    assert listing[..|listing|] == listing;
  }

  /** `model_dict.get(adduct, model_all)`. */
  function DictModel(d: map<string, string>, key: string): (file: string)
    ensures key in d ==> file == d[key]
    ensures key !in d ==> file == DefaultModelFile
  {
    if key in d then d[key] else DefaultModelFile
  }

  /** `df_predict.apply(predict_row, axis=1)`. */
  function DictPredictions(d: map<string, string>, classify: Classifier, hasAdductColumn: bool,
                           rows: seq<FeatureRow>): (probs: seq<Prob>)
    ensures |probs| == |rows|
  {
    var probs := seq<Prob>(|rows|, i requires 0 <= i < |rows| =>
      classify(DictModel(d, SelectorKey(hasAdductColumn, rows[i].adduct)))(FeatureValues(rows[i])));
    probs
  }

  /** What calculating_score's `predict_and_append` appends: the default
      model must load, and then each row is scored by its adduct's model or
      the default one. Missing feature columns and NaN read as 0. */
  function FormulaPredictions(listing: seq<string>, classify: Classifier, hasAdductColumn: bool,
                              rows: seq<FeatureRow>): (r: Result<seq<Prob>>)
    ensures r.Ok? <==> DefaultModelFile in listing
    ensures r.Err? ==> r.error == FileNotFoundError(DefaultModelFile)
    ensures r.Ok? ==>
      |r.value| == |rows|
      && forall i :: 0 <= i < |rows| ==>
           var file := DictModel(ModelDict(listing), SelectorKey(hasAdductColumn, rows[i].adduct));
           file in listing && r.value[i] == classify(file)(FeatureValues(rows[i]))
  {
    if DefaultModelFile !in listing then Err(FileNotFoundError(DefaultModelFile))
    else Ok(DictPredictions(ModelDict(listing), classify, hasAdductColumn, rows))
  }

  method PredictWithModelDict(listing: seq<string>, classify: Classifier, hasAdductColumn: bool,
                              rows: seq<FeatureRow>) returns (r: Result<seq<Prob>>)
    ensures r == FormulaPredictions(listing, classify, hasAdductColumn, rows)
  {
    if DefaultModelFile !in listing {
      return Err(FileNotFoundError(DefaultModelFile));
    }
    var d := LoadModels(listing);
    r := Ok(DictPredictions(d, classify, hasAdductColumn, rows));
  }
}
