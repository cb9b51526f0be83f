/**
 * The two presentation helpers of the playground that hold logic: the lookup
 * of the current step in the fixed four-step table, and the formatting of the
 * sample `curl` command shown beside each request.
 */
module Helpers {
  import opened Wrappers
  import opened Text
  import opened Form

  /** One step of the walkthrough (its HTML description text is not modelled). */
  datatype Step = Step(name: string, screenId: Option<string>, title: string)

  /** The walkthrough, in order; the first step has no screen of its own. */
  const Steps: seq<Step> := [
    Step("configure", None, "Device Flow Playground"),
    Step("authorize", Some("authorize-screen"), "Authorization Request"),
    Step("exchange", Some("exchange-screen"), "Token Exchange"),
    Step("complete", Some("complete-screen"), "Activation Complete")
  ]

  /** The position of the first step called `name`, or `|steps|` when there is none. */
  function StepIndex(steps: seq<Step>, name: string): (k: nat)
    ensures k <= |steps|
    ensures forall j :: 0 <= j < k ==> steps[j].name != name
    ensures k < |steps| ==> steps[k].name == name
  {
    if steps == [] then 0
    else if steps[0].name == name then 0
    else 1 + StepIndex(steps[1..], name)
  }

  /**
   * The lookup loop of `renderStep`: the index stops at the first step with
   * the given name, or runs to the end of the table; the current step is that
   * entry, or stays the `configure` entry when no step matches.
   */
  method FindStep(name: string) returns (current: Step, index: nat)
    ensures index == StepIndex(Steps, name)
    ensures index < |Steps| ==> current == Steps[index] && current.name == name
    ensures index == |Steps| ==> current == Steps[0]
  {
    index := 0;
    current := Steps[index];
    while index < |Steps|
      invariant index <= |Steps|
      invariant forall j :: 0 <= j < index ==> Steps[j].name != name
      invariant current == Steps[0]
    {
      if Steps[index].name == name {
        current := Steps[index];
        break;
      }
      index := index + 1;
    }
  }

  /** The table's order, and which steps carry a screen. */
  lemma StepTable()
    ensures |Steps| == 4
    ensures Steps[0].name == "configure" && Steps[1].name == "authorize"
    ensures Steps[2].name == "exchange" && Steps[3].name == "complete"
    ensures Steps[0].screenId.None?
    ensures forall i :: 1 <= i < |Steps| ==> Steps[i].screenId.Some?
  {
  }

  /** Every step is found at its own position: the names are distinct. */
  lemma {:induction false} StepIndexOfListedName(i: nat)
    requires i < |Steps|
    ensures StepIndex(Steps, Steps[i].name) == i
  {
  }

  /** A name outside the table runs the index to 4 while the current step stays `configure`. */
  lemma UnknownStepIndex(name: string)
    requires forall i :: 0 <= i < |Steps| ==> Steps[i].name != name
    ensures StepIndex(Steps, name) == 4
  {
  }

  /** The line-continuation separator: a space, a backslash, a newline and five spaces. */
  const NewLine := " \\\n     "

  /** `-X POST ` for the POST method; any other method gets no flag. */
  function MethodFlag(httpMethod: string): string
  {
    if httpMethod == "POST" then "-X POST " else ""
  }

  /** One header as a quoted `-H` flag. */
  function HeaderFlag(header: string): string
  {
    "-H \"" + header + "\""
  }

  /** Each header as a `-H` flag, joined by single spaces, in input order. */
  function HeaderFlags(headers: seq<string>): (flags: string)
    ensures headers == [] ==> flags == ""
  {
    Join(seq(|headers|, i requires 0 <= i < |headers| => HeaderFlag(headers[i])), " ")
  }

  /** The continuation and the `-d` flag with the encoded form, only when there is data. */
  function DataSuffix(data: Option<FormBody>, encode: FormBody -> string): string
  {
    if data.Some? then NewLine + DataFlag(encode(data.value)) else ""
  }

  /** The encoded form as a quoted `-d` flag. */
  function DataFlag(encoded: string): string
  {
    "-d \"" + encoded + "\""
  }

  /**
   * `generateCurlRequest`: `curl`, the method flag for POST only, the URL on
   * the tenant, a continuation, the header flags, and, when there is data, a
   * continuation and `-d` with the encoded form. The tenant and the form
   * encoder (`URLSearchParams`) are parameters.
   */
  function CurlRequest(tenant: string, endpoint: string, httpMethod: string, headers: seq<string>,
                       data: Option<FormBody>, encode: FormBody -> string): (r: string)
    ensures |r| >= 5 && r[..5] == "curl "
    ensures "-X POST " <= r[5..] <==> httpMethod == "POST"
    ensures var url := "https://" + tenant + endpoint + NewLine;
      |r| >= 5 + |MethodFlag(httpMethod)| + |url| && r[5 + |MethodFlag(httpMethod)|..][..|url|] == url
  {
    var flag := MethodFlag(httpMethod);
    var rest := HeaderFlags(headers) + DataSuffix(data, encode);
    var url := "https://" + tenant + endpoint + NewLine;
    var r := "curl " + (flag + (url + rest));
    assert r[5..] == flag + (url + rest);
    assert httpMethod != "POST" ==> r[5..][0] == 'h';
    assert r[5 + |flag|..] == url + rest;
    assert r[5 + |flag|..][..|url|] == url;
    r
  }

  /** Headers are rendered in input order: one more header appends one more flag after a space. */
  lemma {:induction false} HeaderFlagsAppend(headers: seq<string>, header: string)
    requires headers != []
    ensures HeaderFlags(headers + [header]) == HeaderFlags(headers) + " " + HeaderFlag(header)
  {
    var flags := seq(|headers|, i requires 0 <= i < |headers| => HeaderFlag(headers[i]));
    assert seq(|headers + [header]|, i requires 0 <= i < |headers + [header]| => HeaderFlag((headers + [header])[i]))
      == flags + [HeaderFlag(header)];
    JoinAppend(flags, HeaderFlag(header), " ");
  }

  /** The first line of the command: `curl`, the method flag, the URL and the continuation backslash. */
  function CommandLine(tenant: string, endpoint: string, httpMethod: string): string
  {
    "curl " + (MethodFlag(httpMethod) + ("https://" + tenant + endpoint)) + " \\"
  }

  /** How the continuation separators of a command cut it into lines. */
  lemma LinesJoin(curl: string, flag: string, url: string, h: string, d: string)
    ensures Join([curl + (flag + url) + " \\", "     " + h + " \\", "     " + d], "\n")
         == curl + (flag + (url + NewLine + (h + (NewLine + d))))
    ensures Join([curl + (flag + url) + " \\", "     " + h], "\n")
         == curl + (flag + (url + NewLine + (h + "")))
  {
  }

  /**
   * The command's lines (its text split at newlines, given that no input
   * holds a newline): the command line, the indented header flags, and only
   * when there is data a third indented line with `-d`, in which case the
   * header line also ends with the continuation backslash. Without data the
   * text ends right after the header flags.
   */
  lemma {:induction false} CurlRequestLines(tenant: string, endpoint: string, httpMethod: string, headers: seq<string>,
                                            data: Option<FormBody>, encode: FormBody -> string)
    requires '\n' !in tenant && '\n' !in endpoint && FreeOf(headers, '\n')
    requires data.Some? ==> '\n' !in encode(data.value)
    ensures Split(CurlRequest(tenant, endpoint, httpMethod, headers, data, encode), '\n') ==
      if data.Some? then
        [ CommandLine(tenant, endpoint, httpMethod),
          "     " + HeaderFlags(headers) + " \\",
          "     " + DataFlag(encode(data.value)) ]
      else
        [ CommandLine(tenant, endpoint, httpMethod),
          "     " + HeaderFlags(headers) ]
  {
    var flags := seq(|headers|, i requires 0 <= i < |headers| => HeaderFlag(headers[i]));
    assert FreeOf(flags, '\n') by {
      forall i | 0 <= i < |flags| ensures '\n' !in flags[i] {
        assert flags[i] == "-H \"" + headers[i] + "\"";
      }
    }
    JoinAvoids(flags, " ", '\n');
    var flag := MethodFlag(httpMethod);
    var url := "https://" + tenant + endpoint;
    var h := HeaderFlags(headers);
    var r := CurlRequest(tenant, endpoint, httpMethod, headers, data, encode);
    assert r == "curl " + (flag + (url + NewLine + (h + DataSuffix(data, encode))));
    assert '\n' !in "curl " + (flag + url) + " \\";
    assert '\n' !in "     " + h + " \\" && '\n' !in "     " + h;
    if data.Some? {
      var d := DataFlag(encode(data.value));
      LinesJoin("curl ", flag, url, h, d);
      SplitJoin(["curl " + (flag + url) + " \\", "     " + h + " \\", "     " + d], '\n');
    } else {
      LinesJoin("curl ", flag, url, h, "");
      assert h + "" == h;
      SplitJoin(["curl " + (flag + url) + " \\", "     " + h], '\n');
    }
  }
}
