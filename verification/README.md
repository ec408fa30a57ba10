# Smartphone price predictor: the feature encoder

The application asks for the specifications of a phone in a web form. It turns
them into one numeric feature row and hands that row to a pre-trained
regression model, which estimates the price. The form collects:

- ten numbers: RAM, ROM, battery, processor speed, screen size, horizontal
  and vertical resolution, OS version, front and rear camera;
- four categorical choices: processor name, processor core, OS type and SIM type.

This project models `predict_price` in `app.py`:

- the four hard-coded label-to-list tables;
- the `dict.get` lookups;
- the concatenation that builds the 34-column row;
- the call to the model.

It also models the option lists of the four selection boxes, which are the
labels the form can actually send.

Modules, one file each:

- `wrappers.dfy` (`Wrappers`): `Option`, `Result` and `Get`, which behaves
  like Python's `dict.get`.
- `onehot.dfy` (`OneHot`): one-hot encoding and decoding over an ordered list
  of labels. This is the independent reference that the literal tables are
  checked against.
- `tables.dfy` (`Tables`): the four fields, the labels each selection box
  offers, and the literal tables copied entry for entry. It proves that every
  table is exactly the one-hot encoding of its selection box's list.
- `features.dfy` (`Features`):
  - the numeric specifications and the categorical selection;
  - the lookups and the row assembly;
  - the decomposition of a row back into its inputs, which is the partner
    that shows the row loses nothing.
- `inference.dfy` (`Inference`): the regressor as an opaque value and the
  price prediction.
- `scenarios.dfy` (`Scenarios`): concrete rows for the smallest and largest
  form inputs, and a label that no selection box offers.

A missed lookup does not raise at the lookup itself: `.get` returns `None`,
and the concatenation at app.py:54, inside `predict_price`, then fails when
it adds `None` to a list. The model follows that code. An unknown label yields
`Failure(UnknownLabel(field, label))`, naming the first missing field in
concatenation order, and no row is built.

## Model

| member | source | states |
|---|---|---|
| Wrappers.Get | app.py:49-52 | A lookup is missing exactly when the label is not a key; otherwise it is the table's entry for that key |
| OneHot.EncodingShape | app.py:13-47 | The encoding of a listed label has the list's width, its single 1 at the label's position, exactly one 1 and width − 1 zeros |
| OneHot.OneHotCounts | app.py:13-47 | A vector that is 1 at one position and 0 elsewhere holds exactly one 1 and length − 1 zeros |
| OneHot.DecodeEncode | app.py:13-47 | Reading the position of the 1 in an encoding gives the encoded label back |
| OneHot.EncodeDecode | app.py:13-47 | Over a list without repeats, the only vector that decodes to a label is that label's encoding |
| OneHot.EncodeInjective | app.py:13-47 | Two labels with the same encoding are the same label, so no two labels share the position of the 1 |
| Tables.OptionsShape | app.py:73-93 | Each selection box offers 15, 5, 2 and 2 labels, the widths of the four table lists, and no label twice |
| Tables.KeysAreOptions | app.py:13-47 | The keys of each table are exactly the labels its selection box offers at app.py:73, 75, 85 and 93 |
| Tables.RowIsUnitVector | app.py:13-47 | The table entry of the label at position i of its selection box is the list with its 1 at column i |
| Tables.TableIsEncoding | app.py:13-47 | For every string, looking it up in a literal table gives the same result as one-hot encoding it against the selection box's list, including `None` for labels outside it |
| Tables.DocumentedPositions | app.py:73-93 | 'None' sits at 0 and 'Snapdragon' at 10 among processor names; 'None' at 0 and 'Octa Core' at 3 among cores; Android/iOS and Dual Sim/Single Sim at 0/1 |
| Features.Lookup | app.py:49-52 | A lookup succeeds exactly on the labels the field's selection box offers, and its list has the field's width |
| Features.LookupIsOneHot | app.py:49-52 | A successful lookup has its single 1 at the label's position in the selection box, with one 1 and width − 1 zeros |
| Features.EncodeSelection | app.py:49-52 | The four lookups succeed together exactly when every label is offered, and give each field's table list at its field's width |
| Features.AssembleRow | app.py:54 | A row is built exactly when every label is offered; it is 34 wide, starts with the ten numbers and holds each field's list at its offset |
| Features.UnknownLabelIsFirst | app.py:49-54 | A failed assembly names a field whose label is not offered, together with that label, and every field before it in row order is offered |
| Features.RowLayout | app.py:54 | The segments start at column 10 and follow each other with no gap, one column per offered label; 10 + 15 + 5 + 2 + 2 = 34 |
| Features.RowOrder | app.py:54 | Columns 0-9 are RAM, ROM, battery, processor speed, screen size, horizontal and vertical resolution, OS version, front and rear camera; the name, core, OS and SIM lists are at 10-24, 25-29, 30-31 and 32-33 |
| Features.RowSegmentIsOneHot | app.py:54 | Each segment of a built row is the unit list with its 1 at the chosen label's position in its selection box |
| Features.DecomposeAssemble | app.py:54 | Reading a built row back gives the very specifications and labels it was built from |
| Features.AssembleDecompose | app.py:54 | Any row that reads back as some inputs is exactly the row those inputs build |
| Features.AssembleInjective | app.py:54 | Different inputs never build the same row, so the model sees every choice that was made |
| Inference.Apply | app.py:56 | The regressor gives its estimate for the row exactly when the row has the width it was fitted on, and reports the width mismatch otherwise |
| Inference.PredictPrice | app.py:10-57 | A price comes back exactly when every label is offered and the regressor takes 34 columns; an unknown label is reported, with the first missing field and its label, before the regressor is consulted |
| Inference.PredictionIsEstimateOfRow | app.py:54-56 | A successful prediction is the regressor's estimate for the assembled row, so it depends on the inputs only through that row |
| Inference.EchoedColumn | app.py:54-56 | A stub regressor that echoes column i < 10 returns the i-th numeric input, so the row hands every number to the model in its place |
| Scenarios.RowAtPositions | app.py:54 | Labels at positions kn, kc, ko and ks of their selection boxes give the row "ten numbers, then unit lists with their 1 at kn of 15, kc of 5, ko of 2 and ks of 2" |
| Scenarios.SmallestRow | app.py:67-93 | The smallest form values with the first label of every box give [1, 1, 1000, 0.1, 1, 100, 100, 1, 0.1, 0.1] followed by a 1 at the head of each segment |
| Scenarios.LargestRow | app.py:67-93 | The largest form values with Snapdragon, Octa Core, iOS and Single Sim give their ten numbers followed by 1s at positions 10 of 15, 3 of 5, 1 of 2 and 1 of 2 |
| Scenarios.UnknownProcessorName | app.py:49-54 | The processor name 'Foo' produces no row and is reported as an unknown processor name |

## Left out

- The Streamlit page (app.py:60-98): titles, widgets, the button and the
  two-decimal naira display are presentation. The widgets' minimum and
  maximum bounds (app.py:67-91) appear only as the `InFormRange` predicate of
  the scenarios, because the widget library enforces them.
- Loading the pickled model (app.py:6-7) is file I/O. The loaded model is a
  parameter of `PredictPrice`.
- The internals of `model.predict` (app.py:56) belong to an external library.
  The regressor is modelled as the width it was fitted on plus a total
  function of the row. A row of the wrong width becomes
  `WidthMismatch`, which stands for the exception the library raises there;
  `app.py` has no width check of its own.
- Floating point: numbers are modelled as `real`, and only their position in
  the row is reasoned about. numpy's promotion of the 0/1 integers to floats
  is modelled by `AsReals`, without rounding.
- The 2-D numpy array around the row (app.py:54) and the one-element result
  array are library details. The model uses one row and one price.
- Unknown labels: Python raises a `TypeError` at the first `list + None`. The
  model returns a `Failure` value instead. Python performs all four `.get`
  calls before concatenating, but they have no side effects, so only the
  order of the concatenation matters for the error reported.
- Determinism of encoding, assembly and prediction has no lemma of its own.
  Every member here is a pure function, so equal inputs give equal rows and
  equal predictions by construction. `PredictionIsEstimateOfRow` states what
  the prediction depends on.
