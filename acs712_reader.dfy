/**
 * The ACS712 current sensor reader: the sysfs path of the ADC channel it
 * samples, fixed once by the constructor, and the acquisition of one raw
 * sample from that path.
 */
module Acs712Reader {
  import opened Wrappers
  import opened Decimal

  /** The C++ `int` the channel number is declared with. */
  newtype Int32 = x: int | -0x8000_0000 <= x < 0x8000_0000

  /** The IIO device directory every instance reads from. */
  const BasePath: string := "/sys/bus/iio/devices/iio:device0/"

  /** What precedes the channel number in a raw-sample path. */
  const RawPrefix: string := BasePath + "in_voltage"

  /** What follows the channel number in a raw-sample path. */
  const RawSuffix: string := "_raw"

  /** The raw-sample file of an ADC channel: base directory, "in_voltage", the channel in decimal, "_raw". */
  function RawPath(channel: int): (p: string)
    ensures |p| > |RawPrefix| + |RawSuffix|
    ensures p[..|RawPrefix|] == RawPrefix && p[..|BasePath|] == BasePath
    ensures p[|p| - |RawSuffix|..] == RawSuffix
    ensures p[|RawPrefix|..|p| - |RawSuffix|] == FromInt(channel)
  {
    var p := BasePath + "in_voltage" + FromInt(channel) + "_raw";
    assert p == RawPrefix + FromInt(channel) + RawSuffix;
    p
  }

  /** The channel a raw-sample path names, or None when the string is not such a path. */
  function ChannelOf(path: string): (c: Option<int>)
  {
    if |path| > |RawPrefix| + |RawSuffix|
       && path[..|RawPrefix|] == RawPrefix
       && path[|path| - |RawSuffix|..] == RawSuffix
       && IsCanonicalInt(path[|RawPrefix|..|path| - |RawSuffix|])
    then Some(ParseInt(path[|RawPrefix|..|path| - |RawSuffix|]))
    else None
  }

  /** The channel can be read back from the path built for it. */
  lemma ChannelOfRawPath(channel: int)
    ensures ChannelOf(RawPath(channel)) == Some(channel)
  {
    ParseIntOfFromInt(channel);
  }

  /** Every string ChannelOf accepts is exactly the path built for the channel it names. */
  lemma RawPathOfChannelOf(path: string)
    requires ChannelOf(path).Some?
    ensures RawPath(ChannelOf(path).value) == path
  {
    var mid := path[|RawPrefix|..|path| - |RawSuffix|];
    FromIntOfParseInt(mid);
    assert path == path[..|RawPrefix|] + mid + path[|path| - |RawSuffix|..];
  }

  /** Distinct channels are read from distinct files. */
  lemma RawPathInjective(a: int, b: int)
    requires RawPath(a) == RawPath(b)
    ensures a == b
  {
    ChannelOfRawPath(a);
    ChannelOfRawPath(b);
  }

  /** The path of the default channel 13 used by the program's entry point. */
  lemma DefaultRawPath()
    ensures RawPath(13) == "/sys/bus/iio/devices/iio:device0/in_voltage13_raw"
  {
  }

  /**
   * What `file >> value` meets in a file that opened: an integer token
   * (already clamped to the range of `int`), a character that cannot start
   * one (a failed extraction then stores 0), or the end of the file while
   * skipping whitespace (`value` is then never written, and `uninitialised`
   * stands for whatever the uninitialised variable held).
   */
  datatype Token = Parsed(v: Int32) | Rejected | AtEof(uninitialised: Int32)

  /** A snapshot of the files that can be opened, each with what extraction meets in it. */
  type Sysfs = map<string, Token>

  /** The text every open-failure message starts with. */
  const OpenErrorPrefix: string := "Erro ao abrir "

  /** The message of the runtime_error thrown when a file cannot be opened. */
  function OpenError(path: string): (m: string)
    ensures |m| == |OpenErrorPrefix| + |path|
    ensures m[..|OpenErrorPrefix|] == OpenErrorPrefix && m[|OpenErrorPrefix|..] == path
  {
    "Erro ao abrir " + path
  }

  /**
   * Reads one integer from a file: throws when the file cannot be opened;
   * otherwise extraction never throws, and the result is the token read, 0
   * when extraction is rejected, or the indeterminate value of the
   * uninitialised variable when the file holds no token at all.
   */
  function ReadIntFromFile(fs: Sysfs, path: string): (r: Result<Int32, string>)
    ensures r.Err? <==> path !in fs
    ensures r.Err? ==> r.error == OpenError(path)
    ensures r.Ok? && fs[path].Parsed? ==> r.value == fs[path].v
    ensures r.Ok? && fs[path].Rejected? ==> r.value == 0
    ensures r.Ok? && fs[path].AtEof? ==> r.value == fs[path].uninitialised
  {
    if path !in fs then Err(OpenError(path))
    else match fs[path]
      case Parsed(v) => Ok(v)
      case Rejected => Ok(0)
      case AtEof(garbage) => Ok(garbage)
  }

  class ACS712 {
    const channel: Int32
    /** Sensitivity in mV/A; a C++ `float`, stored and never inspected here. */
    const sensitivity: real
    /** ADC-unit to mV factor; a C++ `float`. */
    const scale: real
    const basePath: string
    const rawPath: string

    /** What the constructor establishes about the fields, which nothing assigns afterwards. */
    ghost predicate Valid() {
      basePath == BasePath && rawPath == RawPath(channel as int) && scale == 1.0
    }

    constructor (channel: Int32, sensitivityMvPerA: real)
      ensures this.channel == channel && sensitivity == sensitivityMvPerA
      ensures scale == 1.0 && basePath == BasePath && rawPath == RawPath(channel as int)
      ensures Valid()
    {
      var base := "/sys/bus/iio/devices/iio:device0/";
      this.channel := channel;
      sensitivity := sensitivityMvPerA;
      basePath := base;
      rawPath := base + "in_voltage" + FromInt(channel as int) + "_raw";
      scale := 1.0;
    }

    /**
     * The acquisition step of readCurrent: one fresh read of the stored path.
     * It fails exactly when this channel's file cannot be opened.
     */
    method ReadRawSample(fs: Sysfs) returns (r: Result<Int32, string>)
      requires Valid()
      ensures r == ReadIntFromFile(fs, rawPath)
      ensures r.Err? <==> RawPath(channel as int) !in fs
      ensures r.Err? ==> ChannelOf(r.error[|OpenErrorPrefix|..]) == Some(channel as int)
    {
      r := ReadIntFromFile(fs, rawPath);
      ChannelOfRawPath(channel as int);
    }
  }

  /** The sensor the program's entry point builds: channel 13, 185 mV/A. */
  method DefaultSensor() returns (s: ACS712)
    ensures s.Valid() && s.channel == 13 && s.sensitivity == 185.0 && s.scale == 1.0
    ensures s.rawPath == "/sys/bus/iio/devices/iio:device0/in_voltage13_raw"
  {
    s := new ACS712(13, 185.0);
    DefaultRawPath();
  }
}
