/** The device client of core/esp32_led.py: one mutable destination, a fixed
    timeout and palette, and the device's wire contract
      POST {base_url}/set_color   JSON body {"color": name, "rgb": [r, g, b]}
      POST {base_url}/off         no body
      GET  {base_url}/ack         plain-text acknowledgment
      GET  {base_url}/status      JSON status
    Every command is a two-step exchange: the command, then, only if the
    device accepted it, one GET of the acknowledgment, whose text is returned. */
module Esp32Led {
  import opened Text
  import opened Palette
  import opened Http
  import opened Wrappers

  const DEFAULT_TIMEOUT: real := 2.0

  /** An RGB triple on the wire: the JSON list [r, g, b]. */
  function RgbJson(c: Rgb): (j: Json)
    ensures j.JArr? && |j.items| == 3
    ensures j.items[0] == JInt(c.r) && j.items[1] == JInt(c.g) && j.items[2] == JInt(c.b)
  {
    JArr([JInt(c.r), JInt(c.g), JInt(c.b)])
  }

  /** The body `encender_led` posts for `color`: always the canonical name
      under "color"; the palette triple under "rgb" exactly when the canonical
      name is a palette key (a miss is not an error, the name alone is sent);
      no other key, and "color" first. */
  function ColorPayload(colors: ColorTable, color: string): (members: seq<(string, Json)>)
    ensures Member(members, "color") == Some(JStr(CanonicalName(color)))
    ensures Member(members, "rgb").Some? <==> CanonicalName(color) in Keys(colors)
    ensures Member(members, "rgb").Some? ==>
              exists c :: (CanonicalName(color), c) in colors && Member(members, "rgb") == Some(RgbJson(c))
    ensures |members| == if CanonicalName(color) in Keys(colors) then 2 else 1
    ensures members[0].0 == "color"
    ensures forall i :: 0 <= i < |members| ==> members[i].0 == "color" || members[i].0 == "rgb"
  {
    var name := CanonicalName(color);
    match Lookup(colors, name)
    case Some(c) => [("color", JStr(name)), ("rgb", RgbJson(c))]
    case None => [("color", JStr(name))]
  }

  /** The body `set_rgb` posts: the triple under "rgb" and nothing else. */
  function RgbPayload(r: int, g: int, b: int): (members: seq<(string, Json)>)
    ensures Member(members, "rgb") == Some(JArr([JInt(r), JInt(g), JInt(b)]))
    ensures Member(members, "color") == None
    ensures |members| == 1
  {
    [("rgb", RgbJson(Rgb(r, g, b)))]
  }

  /** What `ack` returns for the reply to its GET: the reply's text, unless
      raise_for_status raised. */
  function AckText(reply: Reply): (res: Result<string>)
    ensures res.Ok? <==> RaiseForStatus(reply) == None
    ensures res.Ok? ==> res.value == reply.text
    ensures res.Err? ==> Some(res.error) == RaiseForStatus(reply)
  {
    match RaiseForStatus(reply)
    case Some(e) => Err(e)
    case None => Ok(reply.text)
  }

  /** What `estado` returns for the reply to its GET: the decoded JSON, unless
      raise_for_status raised or the body does not decode. */
  function StatusJson(reply: Reply): (res: Result<Json>)
    ensures res.Ok? <==> RaiseForStatus(reply) == None && reply.json.Some?
    ensures res.Ok? ==> res.value == reply.json.value
    ensures RaiseForStatus(reply).Some? ==> res == Err(RaiseForStatus(reply).value)
    ensures RaiseForStatus(reply) == None && reply.json == None ==> res == Err(DecodeError)
  {
    match RaiseForStatus(reply)
    case Some(e) => Err(e)
    case None => if reply.json.Some? then Ok(reply.json.value) else Err(DecodeError)
  }

  /** The command-then-acknowledge protocol, as seen on the network: `cmd`
      is sent first; when its reply raises, that error is the result and no
      further request is made; otherwise exactly one request, `ack`, follows
      and the result is that of reading the acknowledgment. `script0`/`log0`
      and `script1`/`log1` are the network before and after. */
  ghost predicate CommandThenAck(cmd: Request, ack: Request,
                                 script0: seq<Reply>, log0: seq<Request>,
                                 script1: seq<Reply>, log1: seq<Request>,
                                 res: Result<string>): (holds: bool)
    ensures holds ==> |log0| < |log1| <= |log0| + 2 && log1[..|log0|] == log0 && log1[|log0|] == cmd
  {
    match RaiseForStatus(NextReply(script0))
    case Some(e) =>
      res == Err(e) && log1 == log0 + [cmd] && script1 == AfterNext(script0)
    case None =>
      res == AckText(NextReply(AfterNext(script0)))
      && log1 == log0 + [cmd, ack] && script1 == AfterNext(AfterNext(script0))
  }

  /** A command succeeds only when the device accepted both the command and
      the acknowledgment read, and then exactly [command, ack] was sent; a
      rejected command sent nothing after it. (That every run sends one or two
      requests, the command first, is `CommandThenAck`'s own contract.) */
  lemma CommandThenAckOutcome(cmd: Request, ack: Request,
                              script0: seq<Reply>, log0: seq<Request>,
                              script1: seq<Reply>, log1: seq<Request>,
                              res: Result<string>)
    requires CommandThenAck(cmd, ack, script0, log0, script1, log1, res)
    ensures res.Ok? ==> |script0| >= 2 && RaiseForStatus(script0[0]) == None
                        && RaiseForStatus(script0[1]) == None
                        && res.value == script0[1].text && log1 == log0 + [cmd, ack]
    ensures RaiseForStatus(NextReply(script0)).Some? ==> log1 == log0 + [cmd] && res.Err?
  {
  }

  class Esp32LedClient {
    var base_url: string
    const timeout: real
    const colors: ColorTable
    /** The network the client talks to. */
    const net: Transport

    /** The dataclass constructor and `__post_init__`: every trailing slash
        is removed from the destination and a missing palette is the default one. */
    constructor (base_url: string, net: Transport,
                 timeout: real := DEFAULT_TIMEOUT, colors: Option<ColorTable> := None)
      ensures this.base_url == RStripSlash(base_url)
      ensures this.timeout == timeout && this.net == net
      ensures this.colors == (if colors.Some? then colors.value else DEFAULT_COLORS)
    {
      this.base_url := RStripSlash(base_url);
      this.timeout := timeout;
      this.net := net;
      this.colors := if colors.Some? then colors.value else DEFAULT_COLORS;
    }

    /** `set_destino`: the new destination is `url` without its trailing
        slashes, whatever the old one was; nothing else changes. */
    method SetDestino(url: string)
      modifies this`base_url
      ensures base_url == RStripSlash(url)
    {
      base_url := RStripSlash(url);
    }

    /** `lista_colores`: the palette's names, in insertion order, each once;
        a name is listed exactly when a lookup of it succeeds. */
    function ListaColores(): (names: seq<string>)
      ensures |names| == |colors|
      ensures forall i :: 0 <= i < |colors| ==> names[i] == colors[i].0
      ensures forall i, j :: 0 <= i < j < |names| ==> names[i] != names[j]
      ensures forall name :: name in names <==> Lookup(colors, name).Some?
    {
      Keys(colors)
    }

    /** `ack`: one GET of {base_url}/ack, no retry; its text, or the error raised. */
    method Ack() returns (res: Result<string>)
      modifies net
      ensures net.log == old(net.log) + [Request(Get, base_url + "/ack", None, timeout)]
      ensures net.script == AfterNext(old(net.script))
      ensures res == AckText(NextReply(old(net.script)))
    {
      var reply := net.Send(Request(Get, base_url + "/ack", None, timeout));
      res := AckText(reply);
    }

    /** `estado`: one GET of {base_url}/status, no retry; the decoded JSON, or
        the error raised. */
    method Estado() returns (res: Result<Json>)
      modifies net
      ensures net.log == old(net.log) + [Request(Get, base_url + "/status", None, timeout)]
      ensures net.script == AfterNext(old(net.script))
      ensures res == StatusJson(NextReply(old(net.script)))
    {
      var reply := net.Send(Request(Get, base_url + "/status", None, timeout));
      res := StatusJson(reply);
    }

    /** `encender_led`: posts the colour payload built from the palette, then
        acknowledges as the two-step protocol says. */
    method EncenderLed(color: string) returns (res: Result<string>)
      modifies net
      ensures CommandThenAck(
                Request(Post, base_url + "/set_color", Some(JObj(ColorPayload(colors, color))), timeout),
                Request(Get, base_url + "/ack", None, timeout),
                old(net.script), old(net.log), net.script, net.log, res)
    {
      var name := CanonicalName(color);
      var rgb := Lookup(colors, name);
      var payload := [("color", JStr(name))];
      if rgb.Some? {
        payload := payload + [("rgb", RgbJson(rgb.value))];
      }
      assert payload == ColorPayload(colors, color);
      var reply := net.Send(Request(Post, base_url + "/set_color", Some(JObj(payload)), timeout));
      var raised := RaiseForStatus(reply);
      if raised.Some? {
        return Err(raised.value);
      }
      res := Ack();
    }

    /** `set_rgb`: posts the bare triple, then acknowledges. */
    method SetRgb(r: int, g: int, b: int) returns (res: Result<string>)
      modifies net
      ensures CommandThenAck(
                Request(Post, base_url + "/set_color", Some(JObj(RgbPayload(r, g, b))), timeout),
                Request(Get, base_url + "/ack", None, timeout),
                old(net.script), old(net.log), net.script, net.log, res)
    {
      var reply := net.Send(Request(Post, base_url + "/set_color",
                                    Some(JObj([("rgb", JArr([JInt(r), JInt(g), JInt(b)]))])), timeout));
      var raised := RaiseForStatus(reply);
      if raised.Some? {
        return Err(raised.value);
      }
      res := Ack();
    }

    /** `apagar`: posts to {base_url}/off with no body, then acknowledges. */
    method Apagar() returns (res: Result<string>)
      modifies net
      ensures CommandThenAck(
                Request(Post, base_url + "/off", None, timeout),
                Request(Get, base_url + "/ack", None, timeout),
                old(net.script), old(net.log), net.script, net.log, res)
    {
      var reply := net.Send(Request(Post, base_url + "/off", None, timeout));
      var raised := RaiseForStatus(reply);
      if raised.Some? {
        return Err(raised.value);
      }
      res := Ack();
    }
  }
}
