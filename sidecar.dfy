/**
 * The sidecar helpers of the directory-operations module: the string-to-value
 * reader used when a user types a new value for a JSON sidecar field, and the
 * in-memory edit of one sidecar (remove a key, or set it).
 */
module Sidecar {
  import opened Common
  import opened Text

  /** The Python objects a sidecar field can hold once read from JSON. */
  datatype Value =
    | Null
    | Bool(b: bool)
    | Int(i: int)
    | Str(s: string)
    | List(items: seq<Value>)
    | Dict(entries: map<string, Value>)

  /** Spellings read as `True` and `False` once lower-cased. */
  const TrueWords: set<string> := {"true", "t", "yes", "y"}
  const FalseWords: set<string> := {"false", "f", "no", "n"}

  /** Actions that, lower-cased, delete the key rather than set it. */
  const RemoveActions: set<string> := {"remove", "purge", "delete"}

  /** Replaces typographic double quotes by plain ones before JSON parsing. */
  function StraightenQuotes(s: string): (r: string)
    ensures |r| == |s|
  {
    seq(|s|, i requires 0 <= i < |s| => if s[i] == '\U{201C}' || s[i] == '\U{201D}' then '"' else s[i])
  }

  /**
   * `interpret_value`: values that are not strings come back unchanged (the
   * string test inside that branch can never succeed, so the string "NONE" is
   * not turned into `None`); strings are read by InterpretString. `loads`
   * stands for `json.loads`, returning None where it raises a decode error.
   */
  function InterpretValue(v: Value, loads: string -> Option<Value>): (r: Value)
    ensures !v.Str? ==> r == v
  {
    match v
    case Str(s) => InterpretString(s, loads)
    case _ => v
  }

  /** The string cases of `interpret_value`, in the order the source tries them. */
  function InterpretString(s: string, loads: string -> Option<Value>): Value
    decreases |s|, 1
  {
    if s == "" then Str("")
    else if IsDigits(s) then Int(ParseDigits(s))
    else if StartsWith(s, "[") && EndsWith(s, "]") then InterpretList(s, loads)
    else if StartsWith(s, "{") && EndsWith(s, "}") then
      match loads(StraightenQuotes(s))
      case Some(j) => j
      case None => Null
    else if Lower(s) in TrueWords then Bool(true)
    else if Lower(s) in FalseWords then Bool(false)
    else Str(s)
  }

  /** The list separator: `", "` when it occurs anywhere in the text, `","` otherwise. */
  function ListSeparator(s: string): string
  {
    if Contains(s, ", ") then ", " else ","
  }

  /**
   * The list case: every bracket at either end is stripped, the rest is split on
   * the separator, each piece is read again, and a single piece is unwrapped.
   */
  function InterpretList(s: string, loads: string -> Option<Value>): Value
    requires StartsWith(s, "[")
    decreases |s|, 0
  {
    assert s[0] == '[';
    var stripped := Strip(s, {'[', ']'});
    var parts := Split(stripped, ListSeparator(s));
    var items := seq(|parts|, i requires 0 <= i < |parts| => InterpretString(parts[i], loads));
    if |items| == 1 then items[0] else List(items)
  }

  /** A bracketed text that is neither empty nor all digits takes the list case. */
  lemma BracketCase(s: string, loads: string -> Option<Value>)
    requires StartsWith(s, "[") && EndsWith(s, "]")
    ensures InterpretValue(Str(s), loads) == InterpretList(s, loads)
  {
    assert s != "" && !IsDigit(s[0]);
  }

  /** An all-digit string is read as the integer it denotes: `interpret_value(str(n)) == n`. */
  lemma InterpretDecimal(n: nat, loads: string -> Option<Value>)
    ensures InterpretString(DecimalString(n), loads) == Int(n)
  {
    ParseDecimalString(n);
  }

  /** The empty string stays the empty string. */
  lemma InterpretEmpty(loads: string -> Option<Value>)
    ensures InterpretValue(Str(""), loads) == Str("")
  {
  }

  /** The string "NONE" is not special: it comes back as that string. */
  lemma InterpretNoneWord(loads: string -> Option<Value>)
    ensures InterpretValue(Str("NONE"), loads) == Str("NONE")
  {
    var s := "NONE";
    assert !IsDigit(s[0]) && !StartsWith(s, "[") && !StartsWith(s, "{");
    assert Lower(s) == "none";
  }

  /** A first character that lower-cases to a letter rules out the digit, list and JSON cases. */
  lemma LetterFirst(s: string, loads: string -> Option<Value>)
    requires s != "" && 'a' <= LowerChar(s[0]) <= 'z'
    ensures !IsDigits(s) && !StartsWith(s, "[") && !StartsWith(s, "{")
  {
    assert !IsDigit(s[0]);
  }

  /** Every spelling of true (any letter case) is read as `True`. */
  lemma InterpretTrueWord(s: string, loads: string -> Option<Value>)
    requires Lower(s) in TrueWords
    ensures InterpretValue(Str(s), loads) == Bool(true)
  {
    var l := Lower(s);
    assert l == "true" || l == "t" || l == "yes" || l == "y";
    assert l[0] == 't' || l[0] == 'y';
    LetterFirst(s, loads);
  }

  /** Every spelling of false (any letter case) is read as `False`. */
  lemma InterpretFalseWord(s: string, loads: string -> Option<Value>)
    requires Lower(s) in FalseWords
    ensures InterpretValue(Str(s), loads) == Bool(false)
  {
    var l := Lower(s);
    assert l == "false" || l == "f" || l == "no" || l == "n";
    assert l[0] == 'f' || l[0] == 'n';
    assert l !in TrueWords;
    LetterFirst(s, loads);
  }

  /** A negative number is not all digits, so it is passed through as text. */
  lemma InterpretNegativeNumber(loads: string -> Option<Value>)
    ensures InterpretValue(Str("-3"), loads) == Str("-3")
  {
    var s := "-3";
    assert !IsDigit(s[0]) && !StartsWith(s, "[") && !StartsWith(s, "{");
    assert Lower(s) == "-3";
  }

  /** A decimal fraction is not all digits, so it is passed through as text. */
  lemma InterpretFraction(loads: string -> Option<Value>)
    ensures InterpretValue(Str("1.5"), loads) == Str("1.5")
  {
    var s := "1.5";
    assert !IsDigit(s[1]) && !StartsWith(s, "[") && !StartsWith(s, "{");
    assert Lower(s) == "1.5";
  }

  /** The renderings of a list of naturals, and the values they should read as. */
  function Decimals(ns: seq<nat>): (ds: seq<string>)
    ensures |ds| == |ns|
  {
    seq(|ns|, i requires 0 <= i < |ns| => DecimalString(ns[i]))
  }

  function Ints(ns: seq<nat>): (vs: seq<Value>)
    ensures |vs| == |ns|
  {
    seq(|ns|, i requires 0 <= i < |ns| => Int(ns[i]))
  }

  /** A join of digit strings begins with a digit, ends with a digit, and has no bracket or space. */
  lemma {:induction false} JoinedDigits(ds: seq<string>, sep: string)
    requires ds != [] && forall k :: 0 <= k < |ds| ==> IsDigits(ds[k])
    requires forall i :: 0 <= i < |sep| ==> sep[i] == ',' || sep[i] == ' '
    ensures var j := Join(sep, ds);
      && |j| > 0 && IsDigit(j[0]) && IsDigit(j[|j| - 1])
      && forall i :: 0 <= i < |j| ==> IsDigit(j[i]) || j[i] in sep
    decreases |ds|
  {
    if |ds| > 1 {
      JoinedDigits(ds[1..], sep);
      var j := Join(sep, ds);
      var tail := Join(sep, ds[1..]);
      assert j == ds[0] + sep + tail;
      forall i | 0 <= i < |j| ensures IsDigit(j[i]) || j[i] in sep {
        if i < |ds[0]| {
          assert j[i] == ds[0][i];
        } else if i < |ds[0]| + |sep| {
          assert j[i] == sep[i - |ds[0]|];
        } else {
          assert j[i] == tail[i - |ds[0]| - |sep|];
        }
      }
    }
  }

  /** Brackets around a body that starts and ends with a digit are stripped off exactly. */
  lemma StripBrackets(body: string)
    requires |body| > 0 && IsDigit(body[0]) && IsDigit(body[|body| - 1])
    ensures Strip("[" + body + "]", {'[', ']'}) == body
  {
    var s := "[" + body + "]";
    assert s[1..] == body + "]";
    assert StripLeft(s, {'[', ']'}) == body + "]";
    assert (body + "]")[..|body|] == body;
    assert StripRight(body + "]", {'[', ']'}) == StripRight(body, {'[', ']'});
  }

  /** Reading the renderings of naturals one by one gives their integers. */
  lemma ReadItems(ns: seq<nat>, loads: string -> Option<Value>)
    ensures seq(|ns|, i requires 0 <= i < |ns| => InterpretString(Decimals(ns)[i], loads)) == Ints(ns)
  {
    forall i | 0 <= i < |ns| ensures InterpretString(Decimals(ns)[i], loads) == Int(ns[i]) {
      InterpretDecimal(ns[i], loads);
    }
  }

  /** The list case applied to a text whose stripped and split pieces are known. */
  lemma ListOfDecimals(s: string, ns: seq<nat>, loads: string -> Option<Value>)
    requires StartsWith(s, "[") && EndsWith(s, "]")
    requires Split(Strip(s, {'[', ']'}), ListSeparator(s)) == Decimals(ns)
    ensures |ns| == 1 ==> InterpretValue(Str(s), loads) == Int(ns[0])
    ensures |ns| != 1 ==> InterpretValue(Str(s), loads) == List(Ints(ns))
  {
    BracketCase(s, loads);
    ReadItems(ns, loads);
  }

  /**
   * A list of two or more naturals written as Python prints it, `"[1, 2, 3]"`,
   * is read back as the list of those integers.
   */
  lemma InterpretIntList(ns: seq<nat>, loads: string -> Option<Value>)
    requires |ns| >= 2
    ensures InterpretValue(Str("[" + Join(", ", Decimals(ns)) + "]"), loads) == List(Ints(ns))
  {
    var ds := Decimals(ns);
    var body := Join(", ", ds);
    var s := "[" + body + "]";
    JoinedDigits(ds, ", ");
    assert body == ds[0] + ", " + Join(", ", ds[1..]);
    assert s[|ds[0]| + 1..|ds[0]| + 3] == ", ";
    ContainsAt(s, ", ", |ds[0]| + 1);
    StripBrackets(body);
    SplitJoin(ds, ", ");
    ListOfDecimals(s, ns, loads);
  }

  /** The pieces of a bracketed text without spaces are split on a plain comma. */
  lemma NoSpaceSeparator(s: string, body: string)
    requires s == "[" + body + "]"
    requires forall i :: 0 <= i < |body| ==> body[i] != ' '
    ensures ListSeparator(s) == ","
  {
    forall i | 0 <= i < |s| ensures s[i] != ' ' {
      if 0 < i < |s| - 1 {
        assert s[i] == body[i - 1];
      }
    }
    NotContains(s, ", ", 1);
  }

  /** The same list written without spaces, `"[1,2,3]"`, is read the same way. */
  lemma InterpretCompactIntList(ns: seq<nat>, loads: string -> Option<Value>)
    requires |ns| >= 2
    ensures InterpretValue(Str("[" + Join(",", Decimals(ns)) + "]"), loads) == List(Ints(ns))
  {
    var ds := Decimals(ns);
    var body := Join(",", ds);
    JoinedDigits(ds, ",");
    NoSpaceSeparator("[" + body + "]", body);
    StripBrackets(body);
    SplitJoin(ds, ",");
    ListOfDecimals("[" + body + "]", ns, loads);
  }

  /** A one-element list is unwrapped: `"[7]"` reads as `7`, not `[7]`. */
  lemma InterpretSingletonList(n: nat, loads: string -> Option<Value>)
    ensures InterpretValue(Str("[" + DecimalString(n) + "]"), loads) == Int(n)
  {
    var d := DecimalString(n);
    JoinedDigits([d], ",");
    assert Join(",", [d]) == d;
    NoSpaceSeparator("[" + d + "]", d);
    StripBrackets(d);
    SplitJoin([d], ",");
    assert Decimals([n]) == [d];
    ListOfDecimals("[" + d + "]", [n], loads);
  }

  /** An empty list `"[]"` strips to the empty string, which is read as the empty string. */
  lemma InterpretEmptyList(loads: string -> Option<Value>)
    ensures InterpretValue(Str("[]"), loads) == Str("")
  {
    var s := "[]";
    BracketCase(s, loads);
    assert StripLeft(s, {'[', ']'}) == "";
    assert Strip(s, {'[', ']'}) == "";
    NoSpaceSeparator(s, "");
    assert Split("", ",") == [""];
    assert InterpretList(s, loads) == InterpretString("", loads);
  }

  /** A sidecar file's top-level JSON object. */
  type Sidecar = map<string, Value>

  /** The message returned when a key to remove is absent (Python's `KeyError` text quotes the key). */
  function KeyErrorMessage(key: string): string
  {
    "Encountered a KeyError with key " + key + ":\t'" + key + "'\n"
    + "Was the user attempting to remove a non-existent key?"
  }

  /**
   * `alter_json_sidecar` without the file I/O. `fileExists` is whether the sidecar
   * is on disk and `loaded` is what `json.load` made of it: the object, or the text
   * of its decode error. `written` is what goes back to disk; None means no write.
   * `jsonPath` is the path text as `str(Path(json_path))` prints it: normalised,
   * so repeated and trailing separators are gone and the empty path reads `.`.
   */
  method AlterJsonSidecar(jsonPath: string, fileExists: bool, loaded: Result<Sidecar, string>,
                          action: string, key: Option<string>, value: Value)
    returns (ok: bool, msg: string, written: Option<Sidecar>)
    ensures ok <==> fileExists && key.Some? && loaded.Success?
                    && (Lower(action) in RemoveActions ==> key.value in loaded.value)
    ensures !ok <==> written.None?
    ensures ok ==> msg == "Success"
    ensures !fileExists || key.None? ==> msg == jsonPath + " did not exist"
    ensures fileExists && key.Some? && loaded.Failure? ==>
      msg == "Encountered a JSONDecodeError with with file " + jsonPath + ":\n\t" + loaded.error
    ensures (fileExists && key.Some? && loaded.Success? && Lower(action) in RemoveActions &&
             key.value !in loaded.value) ==> msg == KeyErrorMessage(key.value)
    ensures ok && Lower(action) in RemoveActions ==>
      && written.value.Keys == loaded.value.Keys - {key.value}
      && forall k :: k in written.value ==> written.value[k] == loaded.value[k]
    ensures ok && Lower(action) !in RemoveActions ==>
      && written.value.Keys == loaded.value.Keys + {key.value}
      && written.value[key.value] == value
      && forall k :: k in loaded.value && k != key.value ==> written.value[k] == loaded.value[k]
  {
    if !fileExists || key.None? {
      return false, jsonPath + " did not exist", None;
    }
    if loaded.Failure? {
      return false, "Encountered a JSONDecodeError with with file " + jsonPath + ":\n\t" + loaded.error, None;
    }
    var sidecarData := loaded.value;
    if Lower(action) in RemoveActions {
      if key.value !in sidecarData {
        return false, KeyErrorMessage(key.value), None;
      }
      sidecarData := sidecarData - {key.value};
    } else {
      sidecarData := sidecarData[key.value := value];
    }
    return true, "Success", Some(sidecarData);
  }
}
