# Credit-card fraud detection: a verified model of the glue logic

The repository trains three classifiers on the credit-card fraud dataset
(`main_lanjutan.py`), serves them from a Streamlit page (`app.py`) and ships a
small utility that concatenates the project's source files into one text file
(`gabung_kode.py`). The machine learning is library code. What this project
models and proves is the deterministic logic the authors wrote around it:

- **Artifact naming** (`artifacts.dfy`, module `Artifacts`). Both scripts derive
  the same file name from a model's display name:
  `"best_" + name.lower().replace(' ', '_') + "_model.pkl"`.
- **Column labels** (`columns.dfy`, `decimal.dfy`). Dataset columns are a
  datatype. `Label` renders each one to the exact pandas name; integers are
  rendered in decimal as Python prints them.
- **The front-end** (`app.dfy`, module `App`), covering:
  - loading the selected artifact, or showing the "missing model" message;
  - the 30-slot input row that five sliders fill in place (an array);
  - the columns shown back to the user;
  - the verdict and confidence panel;
  - one run of the whole page.
- **The training script** (`trainer.dfy`, module `Trainer`), covering:
  - the column preparation. A `Frame` class holds the frame's column labels and is changed in place, as pandas does;
  - the KeyError that `drop` raises for a missing label;
  - the loop over the configured models, which grid-searches exactly the models that have a parameter grid, fills `best_models` and dumps each estimator to its file;
  - the whole script, including its early exit when the dataset is missing.
- **How the two scripts fit together** (`pipeline.dfy`, module `Pipeline`):
  - every model the page offers is one the script trains;
  - the trained feature columns are the page's feature names, in order;
  - the page loads exactly the estimator the script stored.
- **The source combiner** (`combine.dfy`, module `Combine`):
  - a top-down walk of a directory tree, kept as an explicit stack the way `os.walk` keeps one;
  - in-place pruning of the excluded directory names;
  - suffix matching against the extension set;
  - consecutive numbering;
  - the exact header format;
  - skip-and-continue on read errors.

  The walk is proved against a specification function `Walk`. A file is
  selected exactly when it is in the tree, lies under no excluded directory
  and ends with a configured extension (`WalkSelectsExactly`).

Fitting, grid search, `predict` and `predict_proba` are function-typed
parameters (oracles). The estimator is a type parameter. The disk is a map
from file names to stored estimators. A directory tree is a value, and reading
a file is an oracle that returns the text or the error raised.

## Model

| member | source | states |
|---|---|---|
| Artifacts.ModelFilenameShape | app.py:20 | the file name is "best_", then each character of the display name lower-cased with ' ' turned into '_', then "_model.pkl" (length \|name\|+15) |
| Artifacts.ModelFilenameIsLowerSnake | app.py:20 | a derived file name contains no space and no upper-case ASCII letter |
| Artifacts.SameFileIffSameSlug | main_lanjutan.py:106 | two display names give the same file exactly when they agree character by character after lower-casing and space replacement |
| Decimal.ParseNatToString | gabung_kode.py:78 | the decimal rendering of a file number reads back to that number |
| Decimal.NatToStringInjective | gabung_kode.py:78 | different numbers render differently, in both directions |
| Columns.LabelInjective | app.py:48-51 | two column labels are equal exactly when the columns are equal |
| App.LoadModel | app.py:18-25 | the derived file name is returned in both branches; the model is None exactly when no file of that name exists, otherwise it is the stored one |
| App.ChoicesHaveDistinctFiles | app.py:33-36 | the three selectable models map to pairwise distinct file names |
| App.MissingModelMessageNamesFile | app.py:42-43 | the error shown for a missing model names the option, the derived file and main_lanjutan.py |
| App.FeatureNamesDistinct | app.py:48-51 | feature_names has 30 entries V1..V28, NormalizedAmount, NormalizedTime, pairwise distinct as columns and as labels |
| App.SliderDefaultsInRange | app.py:59-63 | every slider's default lies within its [min, max] |
| App.DefaultInputs | app.py:59-63 | the untouched sliders give their defaults, all within range |
| App.SlidersAlignWithColumns | app.py:59-70 | the slider titled "Fitur Vn" writes the slot whose feature name is Vn; every slot no slider writes is 0 |
| App.UserInputFeatures | app.py:58-73 | the filled row has length 30, holds v4, v10, v12, v14, v17 at 3, 9, 11, 13, 16 and 0.0 everywhere else, under feature_names |
| App.IndexOf | app.py:83 | a column lookup fails exactly when the label is absent and otherwise finds its first occurrence |
| App.SelectColumns | app.py:83 | selecting columns succeeds exactly when all are present and gives the value under each |
| App.DisplayedColumnsAreSliderValues | app.py:83 | the columns shown back are exactly the five slider values, in the order V4, V10, V12, V14, V17 |
| App.ShowResult | app.py:95-106 | the verdict is fraud exactly when the prediction is 1; confidence is proba[1] for fraud and proba[0] otherwise, with the matching texts |
| App.ConfidenceIsPredictedClassProbability | app.py:101-106 | for a 0/1 prediction the confidence shown is the probability of the predicted class |
| App.RunApp | app.py:39-106 | the page shows the missing-model error exactly when the file is absent; otherwise the slider values, and a verdict exactly when the button was pressed, computed from the stored model on the assembled row |
| Trainer.WithoutMembers | main_lanjutan.py:29 | dropping labels keeps exactly the columns not named |
| Trainer.Missing | main_lanjutan.py:29 | the labels a drop complains about are exactly the requested ones absent from the frame; none are missing exactly when all are present |
| Trainer.Frame.Assign | main_lanjutan.py:27-28 | assigning a column overwrites it in place if present, else appends it |
| Trainer.Frame.Drop | main_lanjutan.py:29-32 | drop raises KeyError naming the missing labels exactly when some are missing, else gives a new frame without the labels |
| Trainer.PrepareFeatures | main_lanjutan.py:26-32 | the step-by-step add/drop sequence gives PreparedColumns |
| Trainer.WithoutTwice | main_lanjutan.py:29-32 | dropping two label lists in turn equals dropping their concatenation |
| Trainer.PreparedColumnsSpec | main_lanjutan.py:26-32 | for a header without NormalizedAmount/NormalizedTime columns: preparation fails with KeyError on the first of Amount, Time, Class that is missing; otherwise the features are the other columns in order, then NormalizedAmount, NormalizedTime |
| Trainer.CreditCardFeatures | main_lanjutan.py:19-32 | for the columns Time, V1..V28, Amount, Class the features are V1..V28, NormalizedAmount, NormalizedTime |
| Trainer.Route | main_lanjutan.py:80-92 | a model is grid-searched exactly when its name is a key of params, with its grid, 3 folds and recall scoring |
| Trainer.RunFor | main_lanjutan.py:74-108 | one iteration keeps the search's best estimator for tuned models, the directly fitted one otherwise, and dumps it to the model's derived file |
| Trainer.Plan | main_lanjutan.py:74 | the models are processed in insertion order, one iteration each |
| Trainer.TrainAll | main_lanjutan.py:72-108 | the loop performs Plan, and leaves best_models and the disk as Best and Saved of its iterations |
| Trainer.BestEntries | main_lanjutan.py:105 | best_models has exactly the processed names as keys; with distinct names each holds its own estimator |
| Trainer.SavedKeys | main_lanjutan.py:106-107 | the files on disk after the loop are the files there before plus every iteration's file |
| Trainer.SavedUntouched | main_lanjutan.py:106-107 | a file no iteration dumps to keeps its content |
| Trainer.SavedOwn | main_lanjutan.py:106-107 | with distinct file names, each iteration's file holds that iteration's estimator |
| Trainer.ConfiguredRouting | main_lanjutan.py:46-65 | every key of params is a model; the order is Logistic Regression, Random Forest, XGBoost; exactly the latter two are tuned, with 3 folds on recall |
| Trainer.ModelsHaveDistinctFiles | main_lanjutan.py:46-50 | the three configured models are stored under pairwise distinct files |
| Trainer.StoredAfterLoop | main_lanjutan.py:72-108 | after the loop best_models has exactly the models' names, each with its own estimator; each model's file holds that estimator and no other file changes |
| Trainer.RunTrainer | main_lanjutan.py:18-108 | a missing dataset prints the error and leaves the disk untouched; a missing column ends in KeyError with no file written; otherwise the models are trained and saved as TrainAll states |
| Pipeline.ChoicesAreTrainedModels | app.py:33-36 | the models offered by the page are exactly the models the script trains |
| Pipeline.ColumnsAlign | app.py:48-51 | the script's features for the dataset header equal feature_names, in order |
| Pipeline.AppLoadsTrainedModel | app.py:18-25 | after training, loading any offered model finds its file and yields the estimator the script produced for it |
| Combine.SlashSuffixNeverMatches | gabung_kode.py:69 | an extension containing '/' is never a suffix of a name without '/' |
| Combine.WorkflowsEntryIsDead | gabung_kode.py:43 | ".github/workflows" is configured but matches no file name |
| Combine.DockerfileSuffixSelected | gabung_kode.py:69 | matching is by suffix: any name ending in "Dockerfile" is selected |
| Combine.CodeFilesMembers | gabung_kode.py:68-69 | in one directory, exactly its files that end with a configured extension are selected |
| Combine.WalkMembers | gabung_kode.py:65-69 | below any directory, the walk selects exactly the code files in the tree that lie under no excluded directory |
| Combine.WalkAllMembers | gabung_kode.py:65-66 | through a list of subdirectories, the walk selects exactly the code files reached through a non-excluded one |
| Combine.WalkSelectsExactly | gabung_kode.py:65-69 | from the root, a path is selected iff the file exists in the tree, matches an extension and has no excluded directory on its way |
| Combine.ExcludedNeverVisited | gabung_kode.py:50-53 | with the configured sets no selected file lies in node_modules, .git or another excluded directory, at any depth |
| Combine.PendingKids | gabung_kode.py:65-66 | pushing a directory's pruned subdirectories schedules exactly their walk, ahead of the rest, and does not grow the stack's size |
| Combine.PopAndPush | gabung_kode.py:65-66 | one walk step: the popped directory's files followed by the new stack's pending files are what was pending, and the stack shrinks |
| Combine.HeaderRoundTrip | gabung_kode.py:77-79 | a file header determines the file's number and relative path: parsing it back returns both |
| Combine.OutputAppend | gabung_kode.py:73-88 | one more selected file appends its section and report, numbered one past the files before it |
| Combine.AddFile | gabung_kode.py:75-88 | the header is written before the read; the text and "\n\n" follow only when the read succeeds; the line printed reports success or the error |
| Combine.AddSelected | gabung_kode.py:70-88 | a selected file bumps the counter to one past the files done and appends its section and its report line |
| Combine.AddFiles | gabung_kode.py:68-88 | one directory's loop adds its selected files in order, numbering each and keeping output and report in step |
| Combine.Combine | gabung_kode.py:56-90 | the final counter is the number of selected files, failed reads included; the output is their numbered sections in walk order; the printed lines are the start line, one report per file and the completion line |

## Left out

- Fitting, grid search, SMOTE, StandardScaler values, train_test_split, predict, predict_proba, classification_report and confusion_matrix: foreign library code over floating point. Fitting and searching are oracles of the model's name (and grid). They do not see the training data.
- The printed evaluation and progress messages of `main_lanjutan.py`, and the `.2%` formatting of the confidence: console output and float formatting.
- joblib serialisation and `os.path.exists`: the disk is a map from file names to estimators.
- Streamlit rendering, tabs, the spinner and `time.sleep`: UI and timing. The button press is a boolean input.
- App.LoadModel, App.RunApp and Pipeline.AppLoadsTrainedModel describe an uncached call of `load_model`. `@st.cache_resource` keeps the first result for each model name across reruns of the page, including a `(None, file)` result. A page that showed the missing-model error therefore keeps showing it after `main_lanjutan.py` writes the file, until the cache is cleared. The cache is not modelled.
- Frame values: a DataFrame is its column labels; the app's single row is a sequence of reals.
- Trainer.PreparedColumnsSpec: the closed form is stated only for headers without NormalizedAmount or NormalizedTime. On a header that already has one, the assignment overwrites that column in its place. `PreparedColumns` and `PrepareFeatures` model that case, but no closed form is proved for it.
- Trainer.RunTrainer: only a missing dataset is an input case, because `main_lanjutan.py` catches only `FileNotFoundError`. A creditcard.csv that exists but cannot be read or parsed raises an uncaught exception without the "❌" message (for example `EmptyDataError`, `ParserError`, `PermissionError` or `IsADirectoryError`). The `csv` parameter cannot express that case.
- Combine.RelPath: joins components with '/', the separator `os.path.relpath` uses on POSIX. On Windows `os.sep` is '\\', so the `FILE k: …` headers differ there.
- Artifacts.Lower: models `str.lower()` on ASCII letters only; Unicode case mapping is not modelled.
- Combine.Combine: the configuration sets are a parameter, and the script's values are `Configured`. Symbolic links, `onerror`, listing order and the text encoding (`errors="ignore"`) are not modelled. The directory listing order is the order of the tree's sequences.
- The timestamped output file name comes from the clock, and whether the walk picks up its own output file depends on the real file system. The output name is a parameter, and the tree is the one given.
- `main.py`, which is a straight sequence of library calls; its artifact is never loaded by the front-end.
