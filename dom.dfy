/** The slice of the browser's environment that the theme script touches:
    a `localStorage`-style key-value store and the `DOMTokenList` behind
    `document.body.classList`, both as values. */
module Dom {

  /** `localStorage.getItem` answers either a string or `null`. */
  datatype Option<T> = None | Some(value: T)

  /** The exceptions `DOMTokenList.add` and `remove` can raise. */
  datatype DomError = SyntaxError | InvalidCharacterError

  /** How a call into the DOM ended: normally, or with an exception. */
  datatype Outcome = Completed | Threw(error: DomError)

  type Storage = map<string, string>
  type ClassSet = set<string>

  /** The storage read: `Some` of the stored string, or `None` for `null`. */
  function GetItem(store: Storage, key: string): (r: Option<string>)
    ensures r == None <==> key !in store
    ensures r.Some? ==> key in store && r.value == store[key]
  {
    if key in store then Some(store[key]) else None
  }

  /** The string a value becomes when it is passed where a DOMString is
      expected: `null` is converted to the four letters "null". */
  function TokenOf(v: Option<string>): (r: string)
    ensures v.Some? ==> r == v.value
    ensures v == None ==> r == "null"
  {
    match v
    case Some(s) => s
    case None => "null"
  }

  /** ASCII whitespace as the DOM standard defines it: tab, line feed,
      form feed, carriage return and space. */
  predicate IsAsciiWhitespace(c: char)
  {
    c == '\t' || c == '\n' || c == '\U{000C}' || c == '\r' || c == ' '
  }

  /** The validation `DOMTokenList.add` and `remove` perform on each token
      before touching the list: an empty token is a SyntaxError, a token
      with whitespace in it an InvalidCharacterError. */
  function TokenCheck(token: string): (r: Outcome)
    ensures r == Completed <==> token != [] && forall i :: 0 <= i < |token| ==> !IsAsciiWhitespace(token[i])
    ensures r == Threw(SyntaxError) <==> token == []
  {
    if token == [] then Threw(SyntaxError)
    else if exists i :: 0 <= i < |token| && IsAsciiWhitespace(token[i]) then Threw(InvalidCharacterError)
    else Completed
  }

  /** The class set after a call to `add` or `remove`, and how it ended. */
  datatype Mutation = Mutation(classes: ClassSet, outcome: Outcome)

  /** `classList.add(token)`: validate, then insert. */
  function Add(classes: ClassSet, token: string): (r: Mutation)
    ensures r.outcome == TokenCheck(token)
    ensures r.outcome == Completed ==> r.classes == classes + {token}
    ensures r.outcome.Threw? ==> r.classes == classes
  {
    var check := TokenCheck(token);
    if check == Completed then Mutation(classes + {token}, Completed) else Mutation(classes, check)
  }

  /** `classList.remove(token)`: validate, then delete. */
  function Remove(classes: ClassSet, token: string): (r: Mutation)
    ensures r.outcome == TokenCheck(token)
    ensures r.outcome == Completed ==> r.classes == classes - {token}
    ensures r.outcome.Threw? ==> r.classes == classes
  {
    var check := TokenCheck(token);
    if check == Completed then Mutation(classes - {token}, Completed) else Mutation(classes, check)
  }
}
