/** StringDetails.hpp: string facilities over a character vector. The
 *  vector is a buffer of `capacity` characters of which the first `size`
 *  are the string; C strings are either null or the characters before
 *  their terminator. */
module Strings {

  /** Characters that a terminated C string can stand for: no '\0' among them. */
  type CChars = s: seq<char> | '\0' !in s

  /** A `const char *`: nullptr, or the characters before the first '\0'. */
  datatype CString = Null | Terminated(chars: CChars)

  /** What a pointer to the characters `s` stands for once read as a C
   *  string: the characters before the first '\0', all of them when there
   *  is none. */
  function UpToNul(s: seq<char>): (r: CChars)
    ensures |r| <= |s| && r == s[..|r|]
    ensures |r| < |s| ==> s[|r|] == '\0'
    ensures r == s <==> '\0' !in s
    decreases |s|
  {
    if s == [] || s[0] == '\0' then []
    else
      var tail := UpToNul(s[1..]);
      assert s[..|tail| + 1] == [s[0]] + s[1..][..|tail|];
      [s[0]] + tail
  }

  /** The characters a C string stands for. */
  function CStringChars(c: CString): seq<char> {
    if c.Null? then [] else c.chars
  }

  /** `SafeStrlen(cstring)`: strlen, with 0 for a null pointer. */
  function SafeStrlen(c: CString): (n: nat)
    ensures n == |CStringChars(c)|
    ensures c.Null? ==> n == 0
  {
    match c
    case Null => 0
    case Terminated(chars) => |chars|
  }

  /** `std::equal(first1, last1, first2, last2)`: the two ranges have the
   *  same length and agree element by element. */
  function Equal(a: seq<char>, b: seq<char>): (r: bool)
    ensures r <==> a == b
    decreases |a|
  {
    if |a| != |b| then false
    else if a == [] then true
    else a[0] == b[0] && Equal(a[1..], b[1..])
  }

  class StringDetails {
    /** The vector's storage: `capacity()` characters. */
    var buffer: seq<char>
    /** `size()`. */
    var size: nat

    ghost predicate Valid()
      reads this
    {
      size <= |buffer|
    }

    /** `capacity()`. */
    function Capacity(): nat
      reads this
    {
      |buffer|
    }

    /** The string: the first `size()` characters of the buffer. */
    function Chars(): seq<char>
      reads this
      requires Valid()
    {
      buffer[..size]
    }

    /** `isSafe()`: the vector has storage. */
    predicate IsSafe()
      reads this
    {
      |buffer| > 0
    }

    /** The default constructor: an empty string without storage. */
    constructor ()
      ensures Valid() && Chars() == [] && Capacity() == 0
    {
      buffer, size := [], 0;
    }

    /** The defaulted copy constructor. */
    constructor Copy(other: StringDetails)
      requires other.Valid()
      ensures Valid() && Chars() == other.Chars()
    {
      buffer, size := other.buffer, other.size;
    }

    /** `resize(from, to)`: the contents become exactly the given range. */
    method Resize(items: seq<char>)
      requires Valid()
      modifies this
      ensures Valid() && Chars() == items
    {
      if |items| <= |buffer| {
        buffer := items + buffer[|items|..];
      } else {
        buffer := items;
      }
      size := |items|;
    }

    /** The C string constructor: `resize(cstring, cstring + SafeStrlen(cstring))`. */
    constructor FromCString(c: CString)
      ensures Valid() && Chars() == CStringChars(c)
    {
      buffer, size := CStringChars(c), SafeStrlen(c);
    }

    /** The C string and length constructor: `resize(cstring, cstring + length)`. */
    constructor FromCStringLength(chars: seq<char>, length: nat)
      requires length <= |chars|
      ensures Valid() && Chars() == chars[..length]
    {
      buffer, size := chars[..length], length;
    }

    /** The view constructor: `resize(view.begin(), view.end())`. */
    constructor FromView(view: seq<char>)
      ensures Valid() && Chars() == view
    {
      buffer, size := view, |view|;
    }

    /** The defaulted copy assignment. */
    method CopyAssign(other: StringDetails)
      requires Valid() && other.Valid()
      modifies this
      ensures Valid() && Chars() == old(other.Chars())
    {
      buffer, size := other.buffer, other.size;
    }

    /** C string assignment: `resize(cstring, cstring + SafeStrlen(cstring))`. */
    method AssignCString(c: CString)
      requires Valid()
      modifies this
      ensures Valid() && Chars() == CStringChars(c)
    {
      Resize(CStringChars(c));
    }

    /** View assignment: `resize(view.begin(), view.end())`. */
    method AssignView(view: seq<char>)
      requires Valid()
      modifies this
      ensures Valid() && Chars() == view
    {
      Resize(view);
    }

    /** `length()`, the alias of `size()`: the number of characters. */
    function Length(): (n: nat)
      reads this
      requires Valid()
      ensures n == |Chars()|
    {
      size
    }

    /** `operator==(other)`: same length and same characters. */
    function EqualsString(other: StringDetails): (r: bool)
      reads this, other
      requires Valid() && other.Valid()
      ensures r <==> Chars() == other.Chars()
    {
      Equal(buffer[..size], other.buffer[..other.size])
    }

    /** `operator!=(other)`: the negation of `==`. */
    function NotEqualsString(other: StringDetails): (r: bool)
      reads this, other
      requires Valid() && other.Valid()
      ensures r <==> Chars() != other.Chars()
    {
      !EqualsString(other)
    }

    /** `operator==(cstring)`: compared with the SafeStrlen characters, so a
     *  null pointer equals exactly the empty string. */
    function EqualsCString(c: CString): (r: bool)
      reads this
      requires Valid()
      ensures r <==> Chars() == CStringChars(c)
      ensures c.Null? ==> (r <==> Length() == 0)
    {
      Equal(buffer[..size], CStringChars(c))
    }

    /** `operator!=(cstring)`. */
    function NotEqualsCString(c: CString): (r: bool)
      reads this
      requires Valid()
      ensures r <==> Chars() != CStringChars(c)
    {
      !EqualsCString(c)
    }

    /** `operator==(view)`. */
    function EqualsView(view: seq<char>): (r: bool)
      reads this
      requires Valid()
      ensures r <==> Chars() == view
    {
      Equal(buffer[..size], view)
    }

    /** `operator!=(view)`. */
    function NotEqualsView(view: seq<char>): (r: bool)
      reads this
      requires Valid()
      ensures r <==> Chars() != view
    {
      !EqualsView(view)
    }

    /** `insert(end(), from, to)`: the characters are added after the
     *  existing ones, which stay as they were. */
    method InsertAtEnd(items: seq<char>)
      requires Valid()
      modifies this
      ensures Valid() && Chars() == old(Chars()) + items
    {
      buffer := buffer[..size] + items;
      size := size + |items|;
    }

    /** `operator+=(other)`: other's characters, as they were before the call, are appended. */
    method AppendString(other: StringDetails)
      requires Valid() && other.Valid()
      modifies this
      ensures Valid() && Chars() == old(Chars()) + old(other.Chars())
    {
      InsertAtEnd(other.buffer[..other.size]);
    }

    /** `operator+=(cstring)`. */
    method AppendCString(c: CString)
      requires Valid()
      modifies this
      ensures Valid() && Chars() == old(Chars()) + CStringChars(c)
    {
      InsertAtEnd(CStringChars(c));
    }

    /** `operator+=(view)`. */
    method AppendView(view: seq<char>)
      requires Valid()
      modifies this
      ensures Valid() && Chars() == old(Chars()) + view
    {
      InsertAtEnd(view);
    }

    /** `toView()`: a view of the characters when the vector has storage,
     *  the empty view otherwise; either way, the characters. */
    function ToView(): (view: seq<char>)
      reads this
      requires Valid()
      ensures view == Chars()
    {
      if IsSafe() then buffer[..size] else []
    }

    /** `grow(1)`: a larger buffer keeping its characters. */
    method GrowOne()
      requires Valid()
      modifies this
      ensures Valid() && Chars() == old(Chars()) && Capacity() > old(Capacity())
    {
      buffer := buffer + ['\0'];
    }

    /** `c_str()`: null for an empty string; otherwise grows the buffer
     *  when it is full, writes '\0' just past the characters, and returns
     *  the data. Read as a C string it stands for the characters up to the
     *  first '\0' among them: exactly the string when it holds none. */
    method CStr() returns (c: CString)
      requires Valid()
      modifies this
      ensures Valid() && Chars() == old(Chars())
      ensures old(size) == 0 ==> c == Null && buffer == old(buffer)
      ensures old(size) > 0 ==>
                && c == Terminated(UpToNul(old(Chars())))
                && size < Capacity() && buffer[size] == '\0'
      ensures old(size) > 0 && '\0' !in old(Chars()) ==> c == Terminated(old(Chars()))
      ensures old(size) > 0 && old(size) < old(Capacity()) ==> Capacity() == old(Capacity())
      ensures old(size) > 0 && old(size) == old(Capacity()) ==> Capacity() > old(Capacity())
    {
      if size == 0 {
        return Null;
      }
      if size == |buffer| {
        GrowOne();
      }
      buffer := buffer[size := '\0'];
      c := Terminated(UpToNul(buffer[..size]));
    }
  }

  /** The string test: built from "hello world" as a C string, as a char
   *  array or as a view, the string equals all three; assigned nullptr, it
   *  equals nullptr; and c_str() gives "hello world" back. */
  method HelloWorld()
  {
    var value := "hello world";
    var str := new StringDetails.FromCString(Terminated(value));
    assert str.EqualsCString(Terminated(value)) && str.EqualsView(value);
    var fromView := new StringDetails.FromView(value);
    assert fromView.EqualsString(str);
    str.AssignCString(Null);
    assert str.EqualsCString(Null) && str.Length() == 0;
    var c := str.CStr();
    assert c == Null;
    str.AssignView(value);
    str.AppendCString(Null);
    assert str.EqualsView(value);
    c := str.CStr();
    assert c == Terminated(value);
  }

  /** A string holding an embedded '\0': its `c_str()` stands for the one
   *  character before it, and a string built back from that C string has
   *  length 1. */
  method EmbeddedNul()
  {
    var str := new StringDetails.FromView(['a', '\0', 'b']);
    var c := str.CStr();
    assert UpToNul(['a', '\0', 'b']) == ['a'] by {
      assert ['a', '\0', 'b'][1..] == ['\0', 'b'];
    }
    assert c == Terminated(['a']) && SafeStrlen(c) == 1;
    var back := new StringDetails.FromCString(c);
    assert back.Length() == 1 && str.Length() == 3;
  }
}
