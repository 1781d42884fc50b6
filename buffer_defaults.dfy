/**
 * The request-body buffer sizes set up by configureDefaults: each absent setting takes its
 * default, and the initial size is clamped down to the maximum.
 */
module BufferDefaults {
  import opened Wrappers
  import opened RackContext

  /** An initial and a maximum memory buffer size, as handed to RewindableInputStream. */
  datatype BufferSizes = BufferSizes(initial: int, maximum: int)

  /** The sizes the factory installs, for `defaults` the stream's own built-in sizes. */
  function EffectiveBufferSizes(config: RackConfig, defaults: BufferSizes): (sizes: BufferSizes)
    ensures sizes.maximum == config.maximumBufferSize.GetOr(defaults.maximum)
    ensures sizes.initial <= sizes.maximum
    ensures sizes.initial <= config.initialBufferSize.GetOr(defaults.initial)
    ensures sizes.initial == config.initialBufferSize.GetOr(defaults.initial) || sizes.initial == sizes.maximum
  {
    var requested := config.initialBufferSize.GetOr(defaults.initial);
    var maximum := config.maximumBufferSize.GetOr(defaults.maximum);
    BufferSizes(if requested > maximum then maximum else requested, maximum)
  }

  /** configureDefaults: the locals are defaulted and clamped in turn; the result is what is installed. */
  method ConfigureDefaults(config: RackConfig, defaults: BufferSizes) returns (sizes: BufferSizes)
    ensures sizes == EffectiveBufferSizes(config, defaults)
  {
    var iniSize := config.initialBufferSize;
    if iniSize.None? {
      iniSize := Some(defaults.initial);
    }
    var maxSize := config.maximumBufferSize;
    if maxSize.None? {
      maxSize := Some(defaults.maximum);
    }
    if iniSize.value > maxSize.value {
      iniSize := maxSize;
    }
    sizes := BufferSizes(iniSize.value, maxSize.value);
  }

  /** A consistent configuration is installed as it is. */
  lemma ConsistentSizesAreKept(config: RackConfig, defaults: BufferSizes)
    requires config.initialBufferSize.GetOr(defaults.initial) <= config.maximumBufferSize.GetOr(defaults.maximum)
    ensures EffectiveBufferSizes(config, defaults) ==
      BufferSizes(config.initialBufferSize.GetOr(defaults.initial), config.maximumBufferSize.GetOr(defaults.maximum))
  {
  }

  /** An initial size of 8192 with a maximum of 4096 gives an initial size of 4096. */
  lemma ClampExample(config: RackConfig, defaults: BufferSizes)
    requires config.initialBufferSize == Some(8192) && config.maximumBufferSize == Some(4096)
    ensures EffectiveBufferSizes(config, defaults) == BufferSizes(4096, 4096)
  {
  }
}
