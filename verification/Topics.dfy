/** Routing: which topic carries each event type and which component subscribes to it. */
module Topics {
  import opened Domain

  datatype Component = Orchestrator | PaymentWorker | InventoryWorker | NotificationWorker | ViewProjector

  function TopicForEventType(kind: EventType): Option<string> {
    match kind
    case OrderCreated => Some("orders.created")
    case OrderCompleted => Some("orders.status")
    case OrderFailed => Some("orders.status")
    case PaymentCommand => Some("orders.payment.cmd")
    case PaymentCompensate => Some("orders.payment.cmd")
    case PaymentResult => Some("orders.payment.result")
    case PaymentCompensateResult => Some("orders.payment.result")
    case InventoryCommand => Some("orders.inventory.cmd")
    case InventoryResult => Some("orders.inventory.result")
    case NotificationCommand => Some("orders.notification.cmd")
    case NotificationResult => Some("orders.notification.result")
    case OtherType(_) => None
  }

  /** The topics each service names in its consumer configuration. */
  function Subscriptions(component: Component): set<string> {
    match component
    case Orchestrator =>
      {"orders.created", "orders.payment.result", "orders.inventory.result", "orders.notification.result"}
    case PaymentWorker => {"orders.payment.cmd"}
    case InventoryWorker => {"orders.inventory.cmd"}
    case NotificationWorker => {"orders.notification.cmd"}
    case ViewProjector =>
      {"orders.created", "orders.status", "orders.payment.cmd", "orders.payment.result",
       "orders.inventory.cmd", "orders.inventory.result", "orders.notification.cmd", "orders.notification.result"}
  }

  predicate Receives(component: Component, kind: EventType) {
    var topic := TopicForEventType(kind);
    topic.Some? && topic.value in Subscriptions(component)
  }

  /** The one component that acts on an event type; terminal events are only projected. */
  function ConsumerOf(kind: EventType): Option<Component> {
    match kind
    case PaymentCommand => Some(PaymentWorker)
    case PaymentCompensate => Some(PaymentWorker)
    case InventoryCommand => Some(InventoryWorker)
    case NotificationCommand => Some(NotificationWorker)
    case OrderCreated => Some(Orchestrator)
    case PaymentResult => Some(Orchestrator)
    case PaymentCompensateResult => Some(Orchestrator)
    case InventoryResult => Some(Orchestrator)
    case NotificationResult => Some(Orchestrator)
    case OrderCompleted => None
    case OrderFailed => None
    case OtherType(_) => None
  }

  /** Subscriptions agree with responsibilities: no component but the projector is sent
      an event it would ignore, and no event is sent to two acting components. */
  lemma SubscriptionsMatchResponsibilities(component: Component, kind: EventType)
    requires component != ViewProjector
    ensures Receives(component, kind) <==> ConsumerOf(kind) == Some(component)
    ensures Receives(ViewProjector, kind) <==> !kind.OtherType?
  {
  }

  /** A message as Kafka stores it. */
  datatype Message = Message(topic: string, key: OrderId, value: Event)

  /** The message stands in the topic of its event type, under the order it belongs to. */
  predicate Routed(m: Message) {
    TopicForEventType(m.value.kind) == Some(m.topic) && m.key == m.value.order
  }

  /** A routed message reaches, by the topics they name, exactly the components that receive its
      event type; of those that act, exactly the one that acts on it. */
  lemma RoutedReaches(m: Message, component: Component)
    requires Routed(m)
    ensures m.topic in Subscriptions(component) <==> Receives(component, m.value.kind)
    ensures component != ViewProjector ==>
      (m.topic in Subscriptions(component) <==> ConsumerOf(m.value.kind) == Some(component))
  {
    if component != ViewProjector {
      SubscriptionsMatchResponsibilities(component, m.value.kind);
    }
  }

  /** Commands and results are segregated by direction: a command and its result share the name of
      their stage and differ in the suffix. */
  lemma TopicsAreSegregated(kind: EventType)
    requires TopicForEventType(kind).Some?
    ensures TopicForEventType(kind).value ==
      if kind.PaymentCommand? || kind.PaymentCompensate? then "orders.payment" + ".cmd"
      else if kind.PaymentResult? || kind.PaymentCompensateResult? then "orders.payment" + ".result"
      else if kind.InventoryCommand? then "orders.inventory" + ".cmd"
      else if kind.InventoryResult? then "orders.inventory" + ".result"
      else if kind.NotificationCommand? then "orders.notification" + ".cmd"
      else if kind.NotificationResult? then "orders.notification" + ".result"
      else if kind.OrderCreated? then "orders.created"
      else "orders.status"
  {
  }

  function DLQTopicFor(topic: string): string {
    topic + ".dlq"
  }

  /** Distinct source topics keep distinct dead letter topics, and a dead letter topic is
      never one of the flow topics, so moving a message never feeds it back to a handler. */
  lemma DeadLettersStaySeparate(t1: string, t2: string, component: Component)
    ensures DLQTopicFor(t1) == DLQTopicFor(t2) ==> t1 == t2
    ensures DLQTopicFor(t1) !in Subscriptions(component)
  {
    if DLQTopicFor(t1) == DLQTopicFor(t2) {
      assert t1 == DLQTopicFor(t1)[..|DLQTopicFor(t1)| - 4];
      assert t2 == DLQTopicFor(t2)[..|DLQTopicFor(t2)| - 4];
    }
    var d := DLQTopicFor(t1);
    assert d[|d| - 1] == 'q';
    forall t | t in Subscriptions(component)
      ensures t != d
    {
      assert t[|t| - 1] == 'd' || t[|t| - 1] == 's' || t[|t| - 1] == 't';
    }
  }
}
