/** The already-parsed command line: which sink to feed and the settings of
    the RTSP source and of the Kinesis Video Streams sink. */
module Config {
  import opened Outcomes

  datatype RtspConfig = RtspConfig(url: string, userId: Option<string>, password: Option<string>)

  /** `stream_name` is a required flag, so it is always present. */
  datatype KvsConfig = KvsConfig(
    accessKeyId: string,
    secretKey: string,
    streamName: string,
    region: Option<string>)

  /** The subcommand: play the stream locally, or send it to Kinesis Video Streams. */
  datatype Command =
    | PlayBack(rtsp: RtspConfig)
    | Kvs(kvs: KvsConfig, rtsp: RtspConfig)

  /** `Cli::rtsp_config`: the RTSP settings, whichever subcommand carries them. */
  function RtspConfigOf(cmd: Command): (c: RtspConfig)
    ensures c == cmd.rtsp
  {
    match cmd
    case PlayBack(c) => c
    case Kvs(_, c) => c
  }

  /** The source is configured the same way whichever sink is chosen. */
  lemma SourceConfigIgnoresSink(c: RtspConfig, k: KvsConfig)
    ensures RtspConfigOf(PlayBack(c)) == RtspConfigOf(Kvs(k, c)) == c
  {
  }
}
