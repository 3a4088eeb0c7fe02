/**
 * The image-name accessors of src/kubernetes/dto/PodConfig.class.ts.
 *
 * The setter splits its argument on ':' the way `String.prototype.split` does
 * with a one-character separator; the getter's tagged branch reads the
 * accessor itself again, so it never returns normally.
 */
module PodConfigs {
  import opened Wrappers
  import opened Sequences

  /** `s.split(sep)` for a one-character separator: the pieces between separators. */
  function Split(s: string, sep: char): (parts: seq<string>)
    ensures |parts| >= 1
    ensures forall i :: 0 <= i < |parts| ==> sep !in parts[i]
    decreases |s|
  {
    if |s| == 0 then [""]
    else
      var rest := Split(s[1..], sep);
      if s[0] == sep then [""] + rest
      else [[s[0]] + rest[0]] + rest[1..]
  }

  /** `parts.join(sep)`. */
  function Join(parts: seq<string>, sep: char): string
    requires |parts| >= 1
    decreases |parts|
  {
    if |parts| == 1 then parts[0] else parts[0] + [sep] + Join(parts[1..], sep)
  }

  /** Joining the pieces of a split gives back the string. */
  lemma {:induction false} JoinSplit(s: string, sep: char)
    ensures Join(Split(s, sep), sep) == s
    decreases |s|
  {
    if |s| > 0 {
      var rest := Split(s[1..], sep);
      JoinSplit(s[1..], sep);
      if s[0] == sep {
        assert Split(s, sep)[1..] == rest;
      } else {
        var parts := Split(s, sep);
        if |rest| == 1 {
          assert parts == [[s[0]] + rest[0]];
        } else {
          assert parts[1..] == rest[1..];
          assert Join(rest, sep) == rest[0] + [sep] + Join(rest[1..], sep);
        }
      }
    }
  }

  /** Splitting a join of separator-free pieces gives back the pieces. */
  lemma {:induction false} SplitJoin(parts: seq<string>, sep: char)
    requires |parts| >= 1
    requires forall i :: 0 <= i < |parts| ==> sep !in parts[i]
    ensures Split(Join(parts, sep), sep) == parts
    decreases |parts|, |parts[0]|
  {
    var head := parts[0];
    if |head| == 0 {
      if |parts| > 1 {
        SplitJoin(parts[1..], sep);
        assert Join(parts, sep) == [sep] + Join(parts[1..], sep);
        assert ([sep] + Join(parts[1..], sep))[1..] == Join(parts[1..], sep);
        assert Split(Join(parts, sep), sep) == [""] + parts[1..];
      }
    } else {
      var shorter := [head[1..]] + parts[1..];
      assert sep !in head[1..] by {
        assert forall x :: x in head[1..] ==> x in head;
      }
      SplitJoin(shorter, sep);
      assert shorter[1..] == parts[1..];
      var whole := Join(parts, sep);
      assert whole == [head[0]] + Join(shorter, sep) by {
        if |parts| > 1 {
          assert head == [head[0]] + head[1..];
        }
      }
      assert whole[0] == head[0] && whole[1..] == Join(shorter, sep);
      assert head[0] in head;
    }
  }

  /**
   * The first piece is the text before the first separator, and when there is
   * a separator the remaining pieces are those of the text after it.
   */
  lemma {:induction false} SplitAtFirst(s: string, sep: char)
    ensures var k := FirstIndexOf(s, sep);
      && Split(s, sep)[0] == s[..k]
      && (k == |s| ==> Split(s, sep) == [s])
      && (k < |s| ==> Split(s, sep) == [s[..k]] + Split(s[k + 1..], sep))
    decreases |s|
  {
    if |s| > 0 && s[0] != sep {
      SplitAtFirst(s[1..], sep);
      var k := FirstIndexOf(s[1..], sep);
      assert s[..k + 1] == [s[0]] + s[1..][..k];
      if k < |s| - 1 {
        assert s[1..][k + 1..] == s[k + 2..];
      } else {
        assert [s[0]] + s[1..] == s;
      }
    }
  }

  /** What JavaScript's truthiness test on an optional string accepts. */
  predicate Truthy(t: Option<string>)
  {
    t.Some? && t.value != ""
  }

  /** `${x}` for an optional string: an unset value prints as "undefined". */
  function Render(x: Option<string>): string
  {
    if x.Some? then x.value else "undefined"
  }

  /** The tag field after the setter ran on `s`: the second piece if non-empty, else unchanged. */
  function TagAfterSet(s: string, previous: Option<string>): (r: Option<string>)
    ensures r != previous ==> r.Some? && r.value != "" && ':' !in r.value
    ensures Truthy(previous) ==> Truthy(r)
  {
    var parts := Split(s, ':');
    if |parts| > 1 && parts[1] != "" then Some(parts[1]) else previous
  }

  /** The setter stores the text before the first ':' as the name. */
  lemma NameBeforeFirstColon(s: string)
    ensures Split(s, ':')[0] == s[..FirstIndexOf(s, ':')]
    ensures ':' !in s ==> Split(s, ':')[0] == s
  {
    SplitAtFirst(s, ':');
  }

  /**
   * The tag is the text between the first and the second ':' (anything after
   * a second ':' is dropped); with no such text the old tag stays.
   */
  lemma {:induction false} TagBetweenColons(s: string, previous: Option<string>)
    ensures var k := FirstIndexOf(s, ':');
      && (k == |s| ==> TagAfterSet(s, previous) == previous)
      && (k < |s| ==>
            var after := s[k + 1..];
            var tag := after[..FirstIndexOf(after, ':')];
            TagAfterSet(s, previous) == if tag != "" then Some(tag) else previous)
  {
    SplitAtFirst(s, ':');
    var k := FirstIndexOf(s, ':');
    if k < |s| {
      SplitAtFirst(s[k + 1..], ':');
    }
  }

  /** The image of the startup deployment keeps its registry path in the name. */
  lemma SampleImageSplit()
    ensures Split("flusinerd/ubuntussh:latest", ':') == ["flusinerd/ubuntussh", "latest"]
    ensures TagAfterSet("flusinerd/ubuntussh:latest", None) == Some("latest")
  {
    var s := "flusinerd/ubuntussh:latest";
    SplitJoin(["flusinerd/ubuntussh", "latest"], ':');
    assert Join(["flusinerd/ubuntussh", "latest"], ':') == s;
  }

  datatype GetterError = StackOverflow   // RangeError: maximum call stack size exceeded

  /**
   * The getter as written, given how many more frames the call stack holds:
   * with a truthy tag it evaluates the accessor itself before appending the tag.
   */
  function GetterAsWritten(name: Option<string>, tag: Option<string>, frames: nat): (r: Result<Option<string>, GetterError>)
    ensures r.Ok? <==> !Truthy(tag)
    ensures r.Ok? ==> r.value == name
    decreases frames
  {
    if Truthy(tag) then
      var t := tag.value;
      if frames == 0 then Err(StackOverflow)
      else match GetterAsWritten(name, tag, frames - 1)
        case Ok(inner) => Ok(Some(Render(inner) + ":" + t))
        case Err(e) => Err(e)
    else Ok(name)
  }

  /** With a truthy tag the getter fails however deep the stack is. */
  lemma {:induction false} TaggedGetterNeverReturns(name: Option<string>, tag: Option<string>, frames: nat)
    requires Truthy(tag)
    ensures GetterAsWritten(name, tag, frames) == Err(StackOverflow)
    decreases frames
  {
    if frames > 0 {
      TaggedGetterNeverReturns(name, tag, frames - 1);
    }
  }

  /** Without a tag the getter returns the stored name. */
  lemma UntaggedGetterReturnsName(name: Option<string>, tag: Option<string>, frames: nat)
    requires !Truthy(tag)
    ensures GetterAsWritten(name, tag, frames) == Ok(name)
  {
  }

  /** On a fresh object, a name without ':' set and read back is the same string. */
  lemma {:induction false} ColonFreeRoundTrip(s: string, frames: nat)
    requires ':' !in s
    ensures GetterAsWritten(Some(Split(s, ':')[0]), TagAfterSet(s, None), frames) == Ok(Some(s))
  {
    SplitAtFirst(s, ':');
    assert FirstIndexOf(s, ':') == |s|;
  }

  /** A tagged image name set and read back: the read fails. */
  lemma TaggedRoundTripFails(frames: nat)
    ensures GetterAsWritten(Some(Split("flusinerd/ubuntussh:latest", ':')[0]),
                            TagAfterSet("flusinerd/ubuntussh:latest", None), frames) == Err(StackOverflow)
  {
    SampleImageSplit();
    TaggedGetterNeverReturns(Some("flusinerd/ubuntussh"), Some("latest"), frames);
  }

  /** The getter as evidently intended: the stored name, then ':' and the tag when there is one. */
  function IntendedGetter(name: Option<string>, tag: Option<string>): (r: Option<string>)
    ensures name.Some? && ':' !in name.value && Truthy(tag) && ':' !in tag.value ==>
              r.Some? && Split(r.value, ':') == [name.value, tag.value]
  {
    if Truthy(tag) then
      assert name.Some? && ':' !in name.value && ':' !in tag.value ==>
               Split(Render(name) + ":" + tag.value, ':') == [name.value, tag.value] by {
        if name.Some? && ':' !in name.value && ':' !in tag.value {
          SplitJoin([name.value, tag.value], ':');
          assert Join([name.value, tag.value], ':') == name.value + ":" + tag.value;
        }
      }
      Some(Render(name) + ":" + tag.value)
    else name
  }

  /**
   * On a fresh object, reading back a name with at most one ':' and a
   * non-empty tag after it returns the name that was set.
   */
  lemma {:induction false} IntendedRoundTrip(s: string)
    requires |Split(s, ':')| <= 2
    requires |Split(s, ':')| == 2 ==> Split(s, ':')[1] != ""
    ensures IntendedGetter(Some(Split(s, ':')[0]), TagAfterSet(s, None)) == Some(s)
  {
    var parts := Split(s, ':');
    JoinSplit(s, ':');
    if |parts| == 2 {
      assert Join(parts, ':') == parts[0] + [':'] + parts[1];
    }
  }

  class PodConfig {
    /** `_imageName`; unset on a fresh object. */
    var imageName: Option<string>
    /** `_imageTag`; unset on a fresh object. */
    var imageTag: Option<string>

    constructor ()
      ensures imageName == None && imageTag == None
    {
      imageName, imageTag := None, None;
    }

    /** The `imageName` setter. */
    method SetImageName(s: string)
      modifies this
      ensures imageName == Some(Split(s, ':')[0])
      ensures imageTag == TagAfterSet(s, old(imageTag))
    {
      var parts := Split(s, ':');
      imageName := Some(parts[0]);
      if |parts| > 1 && parts[1] != "" {
        imageTag := Some(parts[1]);
      }
    }

    /**
     * The `imageName` getter as written, given the frames the call stack
     * has left: the name when no tag is set, a stack overflow otherwise.
     */
    method GetImageName(frames: nat) returns (r: Result<Option<string>, GetterError>)
      ensures !Truthy(imageTag) ==> r == Ok(imageName)
      ensures Truthy(imageTag) ==> r == Err(StackOverflow)
    {
      if Truthy(imageTag) {
        TaggedGetterNeverReturns(imageName, imageTag, frames);
      }
      r := GetterAsWritten(imageName, imageTag, frames);
    }
  }
}
