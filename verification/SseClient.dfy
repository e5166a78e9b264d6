/** The read loop of src/lib/paper-sse-client.ts, over the pure parser of module SseStream. */
module SseClient {
  import opened Text
  import S = SseStream

  class SseReader {
    var buffer: string
    var currentEventName: string
    var currentDataLines: seq<string>
    /** The callbacks made so far. */
    var callbacks: seq<S.Callback>

    function Frame(): S.Frame
      reads this
    {
      S.Frame(currentEventName, currentDataLines, callbacks)
    }

    function State(): S.Parser
      reads this
    {
      S.Parser(Frame(), buffer)
    }

    constructor ()
      ensures State() == S.START
    {
      buffer, currentEventName, currentDataLines, callbacks := "", S.DEFAULT_EVENT, [], [];
    }

    method ProcessLine(line: string)
      modifies this
      ensures Frame() == S.ProcessLine(old(Frame()), line) && buffer == old(buffer)
    {
      if StartsWith(line, ":") {
        if Includes(Lower(line), "heartbeat") || Includes(Lower(line), "ping") {
          callbacks := callbacks + [S.OnHeartbeat];
        }
        return;
      }
      if Trim(line) == "" {
        if |currentDataLines| > 0 {
          var rawData := Join(currentDataLines, "\n");
          if currentEventName == S.HEARTBEAT_EVENT {
            callbacks := callbacks + [S.OnHeartbeat];
          } else {
            callbacks := callbacks + [S.OnEvent(currentEventName, rawData)];
          }
        }
        currentEventName := "message";
        currentDataLines := [];
        return;
      }
      if StartsWith(line, "event:") {
        currentEventName := Trim(line[6..]);
      } else if StartsWith(line, "data:") {
        var val := line[5..];
        currentDataLines := currentDataLines + [if StartsWith(val, " ") then val[1..] else val];
      }
    }

    /** One decoded chunk: split, keep the last piece, process the others. */
    method Feed(chunk: string)
      modifies this
      ensures State() == S.Feed(old(State()), chunk)
    {
      buffer := buffer + chunk;
      var lines := S.Lines(buffer);
      buffer := lines[|lines| - 1];
      ghost var all := S.Init(lines);
      ghost var done := S.ProcessLines(Frame(), all);
      for i := 0 to |lines| - 1
        invariant S.ProcessLines(Frame(), all[i..]) == done && buffer == S.Last(lines)
      {
        assert all[i..][1..] == all[i + 1..];
        ProcessLine(lines[i]);
      }
    }

    /** The reader is done: close a frame whose last line was not ended. */
    method Finish()
      modifies this
      ensures Frame() == S.Finish(old(State()))
    {
      if |buffer| > 0 {
        ProcessLine(buffer);
        ProcessLine("");
      }
    }

    /** The whole loop on the chunks a stream delivers. */
    method ReadAll(chunks: seq<string>)
      requires State() == S.START
      modifies this
      ensures callbacks == S.Callbacks(chunks)
    {
      ghost var done := S.FeedAll(State(), chunks);
      for i := 0 to |chunks|
        invariant S.FeedAll(State(), chunks[i..]) == done
      {
        assert chunks[i..][1..] == chunks[i + 1..];
        Feed(chunks[i]);
      }
      Finish();
    }
  }
}
