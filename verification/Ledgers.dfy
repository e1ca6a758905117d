/** Byte accounting over a table of files: what is still outstanding. */
module Ledgers {
  import opened Wrappers
  import opened Messages

  function Left(f: FileInfo): nat {
    if f.transferred <= f.total then f.total - f.transferred else 0
  }

  /** The sum of what is left over all files. */
  ghost function Outstanding(files: map<int, FileInfo>): nat {
    if exists id :: id in files then
      var id :| id in files;
      Left(files[id]) + Outstanding(files - {id})
    else 0
  }

  /** Any file can be taken out first. */
  lemma {:induction false} TakeOut(files: map<int, FileInfo>, id: int)
    requires id in files
    ensures Outstanding(files) == Left(files[id]) + Outstanding(files - {id})
  {
    var k :| k in files && Outstanding(files) == Left(files[k]) + Outstanding(files - {k});
    if k != id {
      TakeOut(files - {k}, id);
      TakeOut(files - {id}, k);
      assert files - {k} - {id} == files - {id} - {k};
    }
  }

  lemma PutIn(files: map<int, FileInfo>, id: int, f: FileInfo)
    ensures Outstanding(files[id := f])
         == Outstanding(files) - (if id in files then Left(files[id]) else 0) + Left(f)
  {
    TakeOut(files[id := f], id);
    if id in files {
      TakeOut(files, id);
      assert files[id := f] - {id} == files - {id};
    } else {
      assert files[id := f] - {id} == files;
    }
  }

  /** Broadcasts made because another 256 KiB went by: those of a running transfer with bytes to report. */
  function ProgressCount(told: seq<ChannelMessage>): nat {
    if |told| == 0 then 0
    else ProgressCount(told[..|told| - 1]) + if IsProgress(told[|told| - 1]) then 1 else 0
  }

  predicate IsProgress(m: ChannelMessage) {
    (m.state.ReceivingFiles? || m.state.SendingFiles?) && m.meta.Some? && m.meta.value.ackBytes > 0
  }

  lemma {:induction false} CountOne(told: seq<ChannelMessage>, m: ChannelMessage)
    ensures ProgressCount(told + [m]) == ProgressCount(told) + if IsProgress(m) then 1 else 0
  {
    assert (told + [m])[..|told|] == told;
  }
}
