/** From logging calls to converted files: the pipeline and the file formats put
    together. */
module PipelineFiles {
  import opened Base
  import opened LogRecord
  import opened LogFormat
  import opened PipelineModel
  import opened PipelineInvariant
  import opened PipelineSafety
  import opened PipelineShutdown

  /** A compressor that inverts, and never exceeds the converter's buffer on a
      block's worth of data. */
  ghost predicate UsableCodec(c: Codec) {
    Lossless(c) && forall s {:trigger c.compress(s)} :: |s| <= CONVERTER_BUFFER ==> |c.compress(s)| <= CONVERTER_BUFFER
  }

  lemma WrittenBlocksFit(kinds: seq<bool>, threads: nat, s: State, ch: nat, c: Codec)
    requires Reachable(kinds, threads, s) && ch < |s.chs| && UsableCodec(c)
    ensures BlocksFit(c, s.chs[ch].file)
  {
    ReachableInv(kinds, threads, s);
    assert ChannelInv(ch, s.chs[ch]);
    forall b | b in s.chs[ch].file
      ensures |c.compress(EncodeLog(b))| <= CONVERTER_BUFFER && |EncodeLog(b)| <= CONVERTER_BUFFER
    {
      var i :| 0 <= i < |s.chs[ch].file| && s.chs[ch].file[i] == b;
      assert b == s.chs[ch].sent[i];
      EncodeLogLength(b);
    }
  }

  /** At every moment of every run, cutting a compressed channel's file off after
      any number of bytes and converting it gives the first records of its log. */
  lemma ConvertedFileIsPrefix(kinds: seq<bool>, threads: nat, s: State, ch: nat, c: Codec, n: nat)
    requires Reachable(kinds, threads, s) && ch < |s.chs| && UsableCodec(c)
    requires n <= |CompressedFile(c, s.chs[ch].file)|
    ensures SizesFit(c, CompressedFile(c, s.chs[ch].file)[..n])
    ensures Records(Decompressed(c, CompressedFile(c, s.chs[ch].file)[..n])) <= s.chs[ch].log
  {
    var blocks := s.chs[ch].file;
    WrittenBlocksFit(kinds, threads, s, ch, c);
    CompressedSizesFit(c, blocks, n);
    TruncatedFile(c, blocks, n);
    FlattenPrefix(blocks, WholeFrames(Payloads(c, blocks), n));
    FileIsOrderedPrefix(kinds, threads, s, ch);
  }

  /** After a shutdown that loses nothing, the converted file of a compressed
      channel, and the file of an uncompressed one, are the bytes of its log. */
  lemma FilesHoldTheLogs(kinds: seq<bool>, threads: nat, s: State, ch: nat, c: Codec)
    requires Reachable(kinds, threads, s) && threads > 0 && Terminal(s) && UsableCodec(c)
    requires (AllCompress(s) || NoneCompress(s)) && !s.torn && !s.late && s.dropped == []
    requires ch < |s.chs| && s.chs[ch].phase.Closed?
    ensures Decompressed(c, CompressedFile(c, s.chs[ch].file)) == EncodeLog(s.chs[ch].log)
    ensures EncodeLog(Flatten(s.chs[ch].file)) == EncodeLog(s.chs[ch].log)
    ensures Records(EncodeLog(s.chs[ch].log)) == s.chs[ch].log
  {
    ShutdownLosesNothing(kinds, threads, s);
    assert Complete(s.chs[ch]);
    WrittenBlocksFit(kinds, threads, s, ch, c);
    FormatsAgree(c, s.chs[ch].file);
    BinaryRoundTrip(s.chs[ch].log);
  }
}
