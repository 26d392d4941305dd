/**
 * Startup of the backend: the data file's text is parsed as JSON and the root
 * must be an array of orders, otherwise startup fails before the server listens.
 * Reading the file is done by the caller, which passes its text; the JSON parser is
 * a parameter that yields `None` where `JSON.parse` throws.
 */
module Server {
  import opened Wrappers
  import opened Model

  /** What startup can throw. */
  datatype LoadError =
    | SyntaxError                     // thrown by the JSON parser
    | CorruptData(message: string)    // the parsed root is not an array

  const NotArrayMessage: string := "corrupt data.json, array expected as root element"

  /** The dataset a data file yields, or the error that aborts startup. */
  function Load(text: string, parse: string -> Option<Json>): (r: Result<seq<Order>, LoadError>)
    ensures r.Success? <==> parse(text).Some? && parse(text).value.JArray?
    ensures r.Success? ==> r.value == parse(text).value.elems
    ensures parse(text).None? ==> r == Failure(SyntaxError)
    ensures parse(text).Some? && !parse(text).value.JArray? ==> r == Failure(CorruptData(NotArrayMessage))
  {
    match parse(text)
    case None => Failure(SyntaxError)
    case Some(root) =>
      if root.JArray? then Success(root.elems) else Failure(CorruptData(NotArrayMessage))
  }

  /** The successive values of the server's `data` field during startup. */
  datatype DataSlot =
    | Unset              // before `start`
    | Text(text: string) // the file's text, before parsing
    | Parsed(root: Json) // the parsed root

  class Server {
    const port: string
    const dataFile: string
    const frontendUri: Option<string>
    var data: DataSlot
    /** Whether the HTTP application has been created and told to listen. */
    var listening: bool

    /** True when `data` holds a parsed array, the state the resolvers read. */
    predicate Ready()
      reads this
    {
      data.Parsed? && data.root.JArray?
    }

    /** The orders the resolvers answer from. */
    function Dataset(): seq<Order>
      reads this
      requires Ready()
    {
      data.root.elems
    }

    constructor(port: string, dataFile: string, frontendUri: Option<string>)
      ensures this.port == port && this.dataFile == dataFile && this.frontendUri == frontendUri
      ensures data == Unset && !listening
    {
      this.port := port;
      this.dataFile := dataFile;
      this.frontendUri := frontendUri;
      data := Unset;
      listening := false;
    }

    /**
     * `start()`: store the file's text, replace it by the parsed root, reject a
     * root that is not an array, and only then listen. `start()` itself resolves
     * to nothing; the success value stands for the entry count it logs.
     */
    method Start(text: string, parse: string -> Option<Json>) returns (r: Result<nat, LoadError>)
      modifies this
      ensures r.Success? <==> Load(text, parse).Success?
      ensures r.Success? ==> Ready() && Dataset() == Load(text, parse).value && r.value == |Dataset()|
      ensures r.Failure? ==> r.error == Load(text, parse).error
      ensures data == if parse(text).Some? then Parsed(parse(text).value) else Text(text)
      ensures listening == (old(listening) || r.Success?)
    {
      data := Text(text);
      var parsed := parse(data.text);
      if parsed.None? {
        return Failure(SyntaxError);
      }
      data := Parsed(parsed.value);
      if !data.root.JArray? {
        return Failure(CorruptData(NotArrayMessage));
      }
      listening := true;
      r := Success(|data.root.elems|);
    }
  }
}
