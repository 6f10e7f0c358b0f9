/**
 * `WiFiManager`: a target network name and a connected flag that is derived
 * from nothing but whether a target is set, with a repeating polling timer.
 */
module WiFi {
  import opened Wrappers

  /** A scheduled timer, by its settings. */
  datatype Timer = Timer(interval: real, repeats: bool)

  /** The timer `startMonitoring` schedules: every five seconds, repeating. */
  const PollingTimer: Timer := Timer(5.0, true)

  class WiFiManager {
    var isConnectedToTargetWiFi: bool
    var targetNetworkName: Option<string>
    var timer: Option<Timer>
    /** The timers `stopMonitoring` has invalidated, oldest first. */
    ghost var invalidated: seq<Timer>

    /** The flag says whether a target network is set. */
    predicate FlagMatchesTarget()
      reads this
    {
      isConnectedToTargetWiFi == targetNetworkName.Some?
    }

    /** `init()`: not connected, no target, and the polling timer running;
        no status check is made. */
    constructor ()
      ensures !isConnectedToTargetWiFi && targetNetworkName == None
      ensures timer == Some(PollingTimer) && invalidated == []
      ensures FlagMatchesTarget()
    {
      isConnectedToTargetWiFi := false;
      targetNetworkName := None;
      timer := None;
      invalidated := [];
      new;
      StartMonitoring();
    }

    /** `startMonitoring()`: schedules a new polling timer in place of the
        stored one, which is not invalidated. */
    method StartMonitoring()
      modifies this
      ensures timer == Some(PollingTimer)
      ensures isConnectedToTargetWiFi == old(isConnectedToTargetWiFi) && targetNetworkName == old(targetNetworkName)
      ensures invalidated == old(invalidated)
    {
      timer := Some(PollingTimer);
    }

    /** `stopMonitoring()`: invalidates the stored timer, if any, and forgets it. */
    method StopMonitoring()
      modifies this
      ensures timer == None && invalidated == old(invalidated) + OptionToSeq(old(timer))
      ensures isConnectedToTargetWiFi == old(isConnectedToTargetWiFi) && targetNetworkName == old(targetNetworkName)
    {
      invalidated := invalidated + OptionToSeq(timer);
      timer := None;
    }

    /** `checkWiFiConnectionStatus()`: the flag becomes whether a target is set. */
    method CheckWiFiConnectionStatus()
      modifies this
      ensures isConnectedToTargetWiFi == targetNetworkName.Some? && FlagMatchesTarget()
      ensures targetNetworkName == old(targetNetworkName) && timer == old(timer) && invalidated == old(invalidated)
    {
      isConnectedToTargetWiFi := targetNetworkName != None;
    }

    /** `addWiFiNetwork(ssid:password:)`: the password is not kept. */
    method AddWiFiNetwork(ssid: string, password: string)
      modifies this
      ensures targetNetworkName == Some(ssid) && isConnectedToTargetWiFi && FlagMatchesTarget()
      ensures timer == old(timer) && invalidated == old(invalidated)
    {
      targetNetworkName := Some(ssid);
      CheckWiFiConnectionStatus();
    }

    /** `joinWiFiNetwork(ssid:)`. */
    method JoinWiFiNetwork(ssid: string)
      modifies this
      ensures targetNetworkName == Some(ssid) && isConnectedToTargetWiFi && FlagMatchesTarget()
      ensures timer == old(timer) && invalidated == old(invalidated)
    {
      targetNetworkName := Some(ssid);
      CheckWiFiConnectionStatus();
    }
  }

  /** Checking twice leaves the manager as checking once does. */
  method CheckTwice(m: WiFiManager)
    modifies m
    ensures m.isConnectedToTargetWiFi == m.targetNetworkName.Some?
    ensures m.targetNetworkName == old(m.targetNetworkName) && m.timer == old(m.timer)
    ensures m.invalidated == old(m.invalidated)
  {
    m.CheckWiFiConnectionStatus();
    m.CheckWiFiConnectionStatus();
  }

  /** Stopping twice invalidates the timer once and leaves none. */
  method StopTwice(m: WiFiManager)
    modifies m
    ensures m.timer == None && m.invalidated == old(m.invalidated) + OptionToSeq(old(m.timer))
    ensures m.isConnectedToTargetWiFi == old(m.isConnectedToTargetWiFi)
    ensures m.targetNetworkName == old(m.targetNetworkName)
  {
    m.StopMonitoring();
    m.StopMonitoring();
  }
}
