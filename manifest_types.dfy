/** The values a transforms.json manifest holds once loaded, and the errors a parse can end in.

    The JSON loader itself is not modelled: a manifest arrives as a map of its numeric
    top-level fields plus the (possibly absent) "frames" list. */
module ManifestTypes {

  datatype Option<T> = None | Some(value: T)

  /** The exceptions that escape the parser. None is caught, so each one ends the parse. */
  datatype Error =
    | MissingField(key: string)       // KeyError from meta[key]
    | DatasetEmpty                    // the assertion that at least one image was retained
    | FocalLengthUnavailable          // AttributeError raised by get_focal_lengths
    | ReadFailure(path: DataPath)     // np.load or imageio.imread raised
    | IndexOutOfRange                 // an index past the end of a loaded array or of the depths
    | RaggedPose                      // np.array of a transform_matrix whose rows differ in length
    | MalformedPoses                  // the poses do not stack into an array that [:, :3, 3] can index

  /** A value, or the exception that was raised instead. */
  datatype Result<T> = Ok(value: T) | Err(error: Error) {
    predicate IsFailure() { Err? }

    function PropagateFailure<U>(): Result<U>
      requires Err?
    {
      Err(error)
    }

    function Extract(): T
      requires Ok?
    {
      value
    }
  }

  /** `data / Path(relative)`, kept as the two raw strings it is built from; how pathlib
      joins and normalises them is not modelled. */
  datatype DataPath = Joined(root: string, relative: string)

  /** A pose as it appears in the manifest: a list of rows (normally 4 x 4, row-major). */
  type Matrix = seq<seq<real>>

  /** A list of rows that np.array turns into a two-dimensional array: every row as long as
      the first. NumPy 1.24 and later raise ValueError for any other list of lists. */
  predicate Rectangular(m: Matrix)
  {
    forall r :: 0 <= r < |m| ==> |m[r]| == |m[0]|
  }

  /** One entry of meta["frames"]. */
  datatype Frame = Frame(filePath: string, transformMatrix: Matrix)

  /** The loaded manifest: its numeric top-level fields and its "frames" list, if present. */
  datatype Manifest = Manifest(scalars: map<string, real>, frames: Option<seq<Frame>>)

  /** meta[key]: the value, or the KeyError naming the key. */
  function Field(meta: map<string, real>, key: string): (r: Result<real>)
    ensures r.Ok? <==> key in meta
    ensures r.Ok? ==> r.value == meta[key]
    ensures r.Err? ==> r.error == MissingField(key)
  {
    if key in meta then Ok(meta[key]) else Err(MissingField(key))
  }
}
